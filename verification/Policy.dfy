/**
 The signed server policy: a body whose later lists are optional tails and whose
 role entries carry an icon only when a flag in the role count says so.
 */
module Policy {
  import opened Common
  import opened Wire
  import opened Packets

  const ROLE_ICON_FLAG := 0x8000_0000
  const MIN_ROLE_BYTES := 16
  const MIN_ASSIGNMENT_BYTES := 36
  const MIN_NAMED_ENTRY_BYTES := 36
  const EMOJI_NAME_MAX := 32
  const NICKNAME_MAX := 32

  datatype Role = Role(id: nat, name: bytes, allow: nat, deny: nat, rank: nat, icon: Option<bytes>)

  datatype ServerPolicy = ServerPolicy(
    serverRoot: bytes, ownerId: bytes, version: nat, issuedMs: nat,
    roles: seq<Role>, assignments: seq<(bytes, seq<nat>)>,
    emojis: Named, stickers: Named, sounds: Named, nicknames: Named, sig: bytes)

  /** Names with blob hashes, or members with nicknames. */
  type Named = seq<(bytes, bytes)>

  // ----- names -----

  predicate ValidEmojiName(name: bytes) {
    0 < |name| <= EMOJI_NAME_MAX &&
    forall i :: 0 <= i < |name| ==> 0x61 <= name[i] <= 0x7A || 0x30 <= name[i] <= 0x39 || name[i] == 0x5F
  }

  /** No code point of the general category Cc: U+0000 to U+001F and U+007F to U+009F. */
  predicate NoControl(b: bytes) {
    forall i :: 0 <= i < |b| ==>
      b[i] >= 0x20 && b[i] != 0x7F && !(b[i] == 0xC2 && i + 1 < |b| && b[i + 1] <= 0x9F)
  }

  predicate ValidNickname(name: bytes) {
    0 < |name| <= NICKNAME_MAX && NoControl(name)
  }

  // ----- roles and assignments -----

  type RoleFields = (nat, (bytes, (nat, (nat, (nat, Option<bytes>)))))

  /** The icon part of a role entry: a `Maybe` when icons are flagged, nothing at all otherwise. */
  function IconCodec(withIcons: bool): Codec<Option<bytes>> {
    if withIcons then Maybe(Str()) else Shaped(NoIcon())
  }

  function NoIcon(): Shape<(), Option<bytes>> {
    Shape(Unit(), _ => None, (v: Option<bytes>) => (), (v: Option<bytes>) => v.None?)
  }

  function RoleShape(withIcons: bool): Shape<RoleFields, Role> {
    Shape(Pair(UInt(2), Pair(Str(), Pair(UInt(4), Pair(UInt(4), Pair(UInt(2), IconCodec(withIcons)))))),
          (t: RoleFields) => Role(t.0, t.1.0, t.1.1.0, t.1.1.1.0, t.1.1.1.1.0, t.1.1.1.1.1),
          (r: Role) => (r.id, (r.name, (r.allow, (r.deny, (r.rank, r.icon))))),
          (r: Role) => true)
  }

  function RoleCodec(withIcons: bool): Codec<Role> { Shaped(RoleShape(withIcons)) }

  lemma IconLaws(withIcons: bool)
    ensures Lawful(IconCodec(withIcons)) && Canonical(IconCodec(withIcons)) && AtLeast(IconCodec(withIcons), 0)
  {
    StrLaws();
    MaybeLaws(Str());
    UnitLaws();
    forall x: () ensures ExactParts(NoIcon(), x) {
      assert x == ();
    }
    ShapeLawful(NoIcon());
    ShapeCanonical(NoIcon());
  }

  /** The smallest role entry is `MIN_ROLE_BYTES` long, with or without icons. */
  lemma RoleLaws(withIcons: bool)
    ensures Lawful(RoleCodec(withIcons)) && Canonical(RoleCodec(withIcons)) &&
      AtLeast(RoleCodec(withIcons), MIN_ROLE_BYTES)
  {
    hide RoundTrips, Extends, Canonical, AtLeast, Pair, UInt, Str, IconCodec;
    IconLaws(withIcons);
    StrLaws();
    UIntLaws(2);
    UIntLaws(4);
    var p1 := Pair(UInt(2), IconCodec(withIcons));
    var p2 := Pair(UInt(4), p1);
    var p3 := Pair(UInt(4), p2);
    var p4 := Pair(Str(), p3);
    PairLaws(UInt(2), IconCodec(withIcons));
    PairLaws(UInt(4), p1);
    PairLaws(UInt(4), p2);
    PairLaws(Str(), p3);
    PairLaws(UInt(2), p4);
    PairAtLeast(UInt(2), IconCodec(withIcons), 2, 0);
    PairAtLeast(UInt(4), p1, 4, 2);
    PairAtLeast(UInt(4), p2, 4, 6);
    PairAtLeast(Str(), p3, 4, 10);
    PairAtLeast(UInt(2), p4, 2, 14);
    ShapeLawful(RoleShape(withIcons));
    ShapeCanonical(RoleShape(withIcons));
    ShapeAtLeast(RoleShape(withIcons), MIN_ROLE_BYTES);
  }

  function AssignmentCodec(): Codec<(bytes, seq<nat>)> { Pair(Id(), List(UInt(2), 2)) }

  function Assignments(): Codec<seq<(bytes, seq<nat>)>> { List(AssignmentCodec(), MIN_ASSIGNMENT_BYTES) }

  lemma AssignmentLaws()
    ensures Lawful(Assignments()) && Canonical(Assignments())
  {
    hide RoundTrips, Extends, Canonical, AtLeast, Pair, UInt, Id, List;
    IdLaws();
    UIntLaws(2);
    ListLawful(UInt(2), 2);
    ListCanonical(UInt(2), 2);
    PairLaws(Id(), List(UInt(2), 2));
    PairAtLeast(Id(), List(UInt(2), 2), 32, 4);
    ListLawful(AssignmentCodec(), MIN_ASSIGNMENT_BYTES);
    ListCanonical(AssignmentCodec(), MIN_ASSIGNMENT_BYTES);
  }

  /** Whether the body flags icon-bearing role entries. */
  predicate WithIcons(roles: seq<Role>) {
    exists i :: 0 <= i < |roles| && roles[i].icon.Some?
  }

  /** The role count as written: 32 bits, the top one set when the entries carry icons. */
  function RawCount(roles: seq<Role>): nat {
    var count := |roles| % Pow256(4);
    if WithIcons(roles) && count < ROLE_ICON_FLAG then count + ROLE_ICON_FLAG else count
  }

  predicate Flagged(raw: nat) { raw >= ROLE_ICON_FLAG }

  function CountOf(raw: nat): nat {
    if Flagged(raw) then raw - ROLE_ICON_FLAG else raw
  }

  function RolesCodec(): Codec<seq<Role>> {
    Codec((roles: seq<Role>) => UInt(4).enc(RawCount(roles)) + EncAll(RoleCodec(WithIcons(roles)), roles),
          b => var (raw, rest) :- UInt(4).dec(b);
               if CountOf(raw) > MaxCount(|rest|, MIN_ROLE_BYTES) then Fail(LengthTooLarge(CountOf(raw)))
               else DecAll(RoleCodec(Flagged(raw)), CountOf(raw), rest),
          (roles: seq<Role>) => |roles| < ROLE_ICON_FLAG && AllFit(RoleCodec(WithIcons(roles)), roles))
  }

  /** Below the flag, the written count gives back the number of roles and whether they carry icons. */
  lemma CountReads(roles: seq<Role>)
    requires |roles| < ROLE_ICON_FLAG
    ensures CountOf(RawCount(roles)) == |roles| && Flagged(RawCount(roles)) == WithIcons(roles)
    ensures UInt(4).fits(RawCount(roles))
  {
    assert Pow256(4) == 0x1_0000_0000;
  }

  lemma RolesRoundTrip(roles: seq<Role>, rest: bytes)
    requires RolesCodec().fits(roles)
    ensures RolesCodec().dec(RolesCodec().enc(roles) + rest) == Done(roles, rest)
  {
    hide MaxCount, UInt, RoleCodec, DecAll, EncAll, RoundTrips, Extends, Canonical, AtLeast, WithIcons, RawCount,
      CountOf, Flagged;
    var c, raw := RoleCodec(WithIcons(roles)), RawCount(roles);
    CountReads(roles);
    UIntLaws(4);
    RoleLaws(WithIcons(roles));
    var body := EncAll(c, roles) + rest;
    RoundTrip(UInt(4), raw, body);
    assert RolesCodec().enc(roles) + rest == UInt(4).enc(raw) + body;
    EncAllSize(c, MIN_ROLE_BYTES, roles);
    CountGuardPasses(|roles|, MIN_ROLE_BYTES, |body|);
    DecAllOfEncAll(c, roles, rest);
  }

  lemma RolesExtend(b: bytes, more: bytes)
    requires RolesCodec().dec(b).Done?
    ensures ExtendsAt(RolesCodec(), b, more)
  {
    hide MaxCount, UInt, RoleCodec, DecAll, RoundTrips, Canonical, AtLeast;
    UIntLaws(4);
    Extend(UInt(4), b, more);
    var p := UInt(4).dec(b);
    RoleLaws(Flagged(p.value));
    GuardGrows(MIN_ROLE_BYTES, |p.rest|, |more|);
    DecAllExtends(RoleCodec(Flagged(p.value)), CountOf(p.value), p.rest, more);
  }

  lemma RolesLawful()
    ensures Lawful(RolesCodec())
  {
    var c := RolesCodec();
    forall roles: seq<Role>, rest: bytes ensures RoundTripsAt(c, roles, rest) {
      if c.fits(roles) {
        RolesRoundTrip(roles, rest);
      }
    }
    forall b, more ensures ExtendsAt(c, b, more) {
      if c.dec(b).Done? {
        RolesExtend(b, more);
      }
    }
  }

  lemma OneUnflagged(role: Role)
    requires RoleCodec(true).fits(role) && role.icon.None?
    ensures RoleCodec(false).fits(role) && |RoleCodec(true).enc(role)| == |RoleCodec(false).enc(role)| + 1
  {
    hide UInt, Str, RoleCodec, IconCodec, RoleBytes, RoleFrontFits;
    RoleParts(true, role);
    RoleParts(false, role);
    RoleLength(role, IconCodec(true).enc(None), IconCodec(false).enc(None));
    NoIconParts();
  }

  lemma NoIconParts()
    ensures IconCodec(false).fits(None) && |IconCodec(true).enc(None)| == |IconCodec(false).enc(None)| + 1
  {
  }

  lemma RoleParts(withIcons: bool, role: Role)
    ensures RoleCodec(withIcons).fits(role) <==> RoleFrontFits(role) && IconCodec(withIcons).fits(role.icon)
    ensures RoleCodec(withIcons).enc(role) == RoleBytes(role, IconCodec(withIcons).enc(role.icon))
  {
    hide UInt, Str, IconCodec;
  }

  lemma RoleLength(role: Role, icon: bytes, other: bytes)
    ensures |RoleBytes(role, icon)| - |icon| == |RoleBytes(role, other)| - |other|
  {
    hide UInt, Str;
  }

  predicate RoleFrontFits(role: Role) {
    UInt(2).fits(role.id) && Str().fits(role.name) && UInt(4).fits(role.allow) && UInt(4).fits(role.deny) &&
    UInt(2).fits(role.rank)
  }

  function RoleBytes(role: Role, icon: bytes): bytes {
    UInt(2).enc(role.id) + (Str().enc(role.name) + (UInt(4).enc(role.allow) + (UInt(4).enc(role.deny) +
      (UInt(2).enc(role.rank) + icon))))
  }

  /** Entries without icons are a byte each shorter when the flag is left clear. */
  lemma {:induction false} UnflaggedIsShorter(roles: seq<Role>)
    requires AllFit(RoleCodec(true), roles) && !WithIcons(roles)
    ensures AllFit(RoleCodec(false), roles)
    ensures |EncAll(RoleCodec(true), roles)| == |EncAll(RoleCodec(false), roles)| + |roles|
  {
    hide RoleCodec;
    if roles != [] {
      UnflaggedIsShorter(roles[1..]);
      OneUnflagged(roles[0]);
    }
  }

  ghost predicate ShrinksAt<T>(c: Codec<T>, b: bytes) {
    c.dec(b).Done? ==> c.fits(c.dec(b).value) && |c.enc(c.dec(b).value)| + |c.dec(b).rest| <= |b|
  }

  /** Roles that decode can be written again, in no more bytes. */
  lemma RolesShrink(b: bytes)
    ensures ShrinksAt(RolesCodec(), b)
  {
    hide MaxCount, UInt, RoleCodec, DecAll, EncAll, RoundTrips, Extends, Canonical, AtLeast;
    if RolesCodec().dec(b).Done? {
      UIntLaws(4);
      Reencode(UInt(4), b);
      var p := UInt(4).dec(b);
      UIntFits(4, p.value);
      assert Pow256(4) == 0x1_0000_0000;
      RoleLaws(Flagged(p.value));
      EncAllOfDecAll(RoleCodec(Flagged(p.value)), CountOf(p.value), p.rest);
      var roles := RolesCodec().dec(b).value;
      CountSize(p.value, RawCount(roles));
      if Flagged(p.value) && !WithIcons(roles) {
        UnflaggedIsShorter(roles);
      } else if !Flagged(p.value) {
        NoIconsUnflagged(roles);
      }
    }
  }

  lemma CountSize(m: nat, n: nat)
    ensures |UInt(4).enc(m)| == |UInt(4).enc(n)|
  {
  }

  lemma NoIconsUnflagged(roles: seq<Role>)
    requires AllFit(RoleCodec(false), roles)
    ensures !WithIcons(roles)
  {
    forall i | 0 <= i < |roles| ensures roles[i].icon.None? {
      assert RoleCodec(false).fits(roles[i]);
    }
  }

  // ----- the optional tails -----

  function EmojiName(what: string): Codec<bytes> { Where(Str(), ValidEmojiName, Invalid(what)) }

  function Nickname(): Codec<bytes> { Where(Str(), ValidNickname, Invalid("nickname")) }

  function NamedCodec(what: string): Codec<Named> { List(Pair(EmojiName(what), Id()), MIN_NAMED_ENTRY_BYTES) }

  function NicknameCodec(): Codec<Named> { List(Pair(Id(), Nickname()), MIN_NAMED_ENTRY_BYTES) }

  lemma NamedLaws(what: string)
    ensures Lawful(NamedCodec(what)) && Canonical(NamedCodec(what))
  {
    hide RoundTrips, Extends, Canonical, AtLeast, Pair, Str, Id, List, Where;
    StrLaws();
    IdLaws();
    WhereLaws(Str(), ValidEmojiName, Invalid(what));
    WhereAtLeast(Str(), ValidEmojiName, Invalid(what), 4);
    PairLaws(EmojiName(what), Id());
    PairAtLeast(EmojiName(what), Id(), 4, 32);
    ListLawful(Pair(EmojiName(what), Id()), MIN_NAMED_ENTRY_BYTES);
    ListCanonical(Pair(EmojiName(what), Id()), MIN_NAMED_ENTRY_BYTES);
  }

  lemma NicknameLaws()
    ensures Lawful(NicknameCodec()) && Canonical(NicknameCodec())
  {
    hide RoundTrips, Extends, Canonical, AtLeast, Pair, Str, Id, List, Where;
    StrLaws();
    IdLaws();
    WhereLaws(Str(), ValidNickname, Invalid("nickname"));
    WhereAtLeast(Str(), ValidNickname, Invalid("nickname"), 4);
    PairLaws(Id(), Nickname());
    PairAtLeast(Id(), Nickname(), 32, 4);
    ListLawful(Pair(Id(), Nickname()), MIN_NAMED_ENTRY_BYTES);
    ListCanonical(Pair(Id(), Nickname()), MIN_NAMED_ENTRY_BYTES);
  }

  predicate AllEmpty(xs: seq<Named>) {
    forall i :: 0 <= i < |xs| ==> xs[i] == []
  }

  /** A tail is written when it or any later one has entries, so a reader always meets a count before the next tail. */
  function EncTails(cs: seq<Codec<Named>>, xs: seq<Named>): bytes
    requires |cs| == |xs|
  {
    if AllEmpty(xs) then [] else cs[0].enc(xs[0]) + EncTails(cs[1..], xs[1..])
  }

  /** A tail is read only while bytes remain. */
  function DecTail(c: Codec<Named>, b: bytes): Parse<Named> {
    if b == [] then Done([], []) else c.dec(b)
  }

  function DecTails(cs: seq<Codec<Named>>, b: bytes): Parse<seq<Named>> {
    if cs == [] then Done([], b)
    else
      var (x, rest) :- DecTail(cs[0], b);
      var (xs, rest') :- DecTails(cs[1..], rest);
      Done([x] + xs, rest')
  }

  lemma {:induction false} DecTailsCount(cs: seq<Codec<Named>>, b: bytes)
    ensures DecTails(cs, b).Done? ==> |DecTails(cs, b).value| == |cs|
  {
    if cs != [] && DecTail(cs[0], b).Done? {
      DecTailsCount(cs[1..], DecTail(cs[0], b).rest);
    }
  }

  predicate TailsFit(cs: seq<Codec<Named>>, xs: seq<Named>)
    requires |cs| == |xs|
  {
    forall i :: 0 <= i < |cs| ==> cs[i].fits(xs[i])
  }

  ghost predicate GoodTails(cs: seq<Codec<Named>>) {
    forall i :: 0 <= i < |cs| ==> Lawful(cs[i]) && Canonical(cs[i]) && cs[i].fits([]) && cs[i].enc([]) != []
  }

  lemma {:induction false} NoTails(cs: seq<Codec<Named>>)
    ensures DecTails(cs, []).Done? && DecTails(cs, []).rest == []
    ensures |DecTails(cs, []).value| == |cs| && AllEmpty(DecTails(cs, []).value)
  {
    if cs != [] {
      NoTails(cs[1..]);
    }
  }

  /** All combinations of empty and non-empty tails read back. */
  lemma {:induction false} TailsRoundTrip(cs: seq<Codec<Named>>, xs: seq<Named>)
    requires |cs| == |xs| && GoodTails(cs) && TailsFit(cs, xs)
    ensures DecTails(cs, EncTails(cs, xs)) == Done(xs, [])
  {
    if AllEmpty(xs) {
      NoTails(cs);
      assert DecTails(cs, []).value == xs;
    } else {
      hide Lawful, Canonical;
      var rest := EncTails(cs[1..], xs[1..]);
      TailsRoundTrip(cs[1..], xs[1..]);
      TailIsThere(cs[0], xs[0], rest);
      assert [xs[0]] + xs[1..] == xs;
    }
  }

  lemma TailIsThere(c: Codec<Named>, x: Named, rest: bytes)
    requires Lawful(c) && c.fits(x) && c.fits([]) && c.enc([]) != []
    ensures c.enc(x) + rest != [] && c.dec(c.enc(x) + rest) == Done(x, rest)
  {
    RoundTrip(c, x, rest);
    RoundTrip(c, x, []);
    RoundTrip(c, [], []);
    if c.enc(x) == [] {
      PrefixFails(c, [], []);
    }
  }

  /** Whatever tails are read fit their codecs, and writing them takes no more bytes than were read. */
  lemma {:induction false} TailsShrink(cs: seq<Codec<Named>>, b: bytes)
    requires GoodTails(cs) && DecTails(cs, b).Done? && DecTails(cs, b).rest == []
    ensures var xs := DecTails(cs, b).value; |xs| == |cs| && TailsFit(cs, xs) && |EncTails(cs, xs)| <= |b|
  {
    if cs != [] {
      if b == [] {
        NoTails(cs);
      } else {
        hide Lawful, Canonical;
        Reencode(cs[0], b);
        var p := cs[0].dec(b);
        TailsShrink(cs[1..], p.rest);
        var xs := DecTails(cs, b).value;
        assert xs[1..] == DecTails(cs[1..], p.rest).value;
      }
    }
  }

  function LaterTails(): (cs: seq<Codec<Named>>)
    ensures |cs| == 3
  {
    [NamedCodec("sticker name"), NamedCodec("sound name"), NicknameCodec()]
  }

  function TailCodecs(): (cs: seq<Codec<Named>>)
    ensures |cs| == 4
  {
    [NamedCodec("emoji shortcode")] + LaterTails()
  }

  lemma EmptyListIsWritten<T>(c: Codec<T>, min: nat)
    requires min > 0
    ensures List(c, min).fits([]) && List(c, min).enc([]) != []
  {
  }

  lemma TailCodecsAreGood()
    ensures GoodTails(TailCodecs())
  {
    hide Lawful, Canonical, List, Pair, Where;
    NamedLaws("emoji shortcode");
    NamedLaws("sticker name");
    NamedLaws("sound name");
    NicknameLaws();
    EmptyListIsWritten(Pair(EmojiName("emoji shortcode"), Id()), MIN_NAMED_ENTRY_BYTES);
    EmptyListIsWritten(Pair(EmojiName("sticker name"), Id()), MIN_NAMED_ENTRY_BYTES);
    EmptyListIsWritten(Pair(EmojiName("sound name"), Id()), MIN_NAMED_ENTRY_BYTES);
    EmptyListIsWritten(Pair(Id(), Nickname()), MIN_NAMED_ENTRY_BYTES);
  }

  // ----- the body -----

  type Head = (bytes, (bytes, (nat, nat)))

  function HeadCodec(): Codec<Head> { Pair(Id(), Pair(Id(), Pair(UInt(8), UInt(8)))) }

  type Front = (Head, (seq<Role>, seq<(bytes, seq<nat>)>))

  /** Everything before the tails. */
  function FrontCodec(): Codec<Front> { Pair(HeadCodec(), Pair(RolesCodec(), Assignments())) }

  function FrontOf(p: ServerPolicy): Front {
    ((p.serverRoot, (p.ownerId, (p.version, p.issuedMs))), (p.roles, p.assignments))
  }

  function TailsOf(p: ServerPolicy): seq<Named> { [p.emojis, p.stickers, p.sounds, p.nicknames] }

  function Assemble(front: Front, tails: seq<Named>, sig: bytes): ServerPolicy
    requires |tails| == 4
  {
    ServerPolicy(front.0.0, front.0.1.0, front.0.1.1.0, front.0.1.1.1, front.1.0, front.1.1,
                 tails[0], tails[1], tails[2], tails[3], sig)
  }

  function Body(p: ServerPolicy): bytes {
    FrontCodec().enc(FrontOf(p)) + EncTails(TailCodecs(), TailsOf(p))
  }

  predicate HasName(named: Named, name: bytes) {
    exists i :: 0 <= i < |named| && named[i].0 == name
  }

  /** Every role icon names a custom emoji of the same policy. */
  predicate IconsAreKnown(roles: seq<Role>, emojis: Named) {
    forall i :: 0 <= i < |roles| && roles[i].icon.Some? ==>
      ValidEmojiName(roles[i].icon.value) && HasName(emojis, roles[i].icon.value)
  }

  function DecBody(b: bytes, sig: bytes): Parse<ServerPolicy> {
    var (front, r1) :- FrontCodec().dec(b);
    var (emojis, r2) :- DecTail(NamedCodec("emoji shortcode"), r1);
    if !IconsAreKnown(front.1.0, emojis) then Fail(Invalid("role icon"))
    else
      var (later, r3) :- DecTails(LaterTails(), r2);
      DecTailsCount(LaterTails(), r2);
      Done(Assemble(front, [emojis] + later, sig), r3)
  }

  function Encode(p: ServerPolicy): bytes { Bytes().enc(Body(p)) + p.sig }

  function Decode(b: bytes): Decoded<ServerPolicy> {
    match Finish(Pair(Bytes(), Fixed(64)).dec(b))
    case Err(e) => Err(e)
    case Ok(v) => Finish(DecBody(v.0, v.1))
  }

  /** What the format can carry: field widths, name rules, known icons, and a body a `u32` can measure. */
  predicate WellFormed(p: ServerPolicy) {
    && HeadCodec().fits(FrontOf(p).0)
    && AllFit(RoleCodec(WithIcons(p.roles)), p.roles)
    && Assignments().fits(p.assignments)
    && TailsFit(TailCodecs(), TailsOf(p))
    && IconsAreKnown(p.roles, p.emojis)
    && Bytes().fits(Body(p))
    && |p.sig| == 64
  }

  lemma FrontLaws()
    ensures Lawful(FrontCodec())
  {
    hide RoundTrips, Extends, Canonical, AtLeast, Pair, UInt, Id, RolesCodec, Assignments;
    IdLaws();
    UIntLaws(8);
    PairLaws(UInt(8), UInt(8));
    PairLaws(Id(), Pair(UInt(8), UInt(8)));
    PairLaws(Id(), Pair(Id(), Pair(UInt(8), UInt(8))));
    RolesLawful();
    AssignmentLaws();
    PairLaws(RolesCodec(), Assignments());
    PairLaws(HeadCodec(), Pair(RolesCodec(), Assignments()));
  }

  lemma HeadCanonical()
    ensures Canonical(HeadCodec())
  {
    hide RoundTrips, Extends, Canonical, AtLeast, Pair, UInt, Id;
    IdLaws();
    UIntLaws(8);
    PairLaws(UInt(8), UInt(8));
    PairLaws(Id(), Pair(UInt(8), UInt(8)));
    PairLaws(Id(), Pair(Id(), Pair(UInt(8), UInt(8))));
  }

  lemma FrontShrinks(b: bytes)
    ensures ShrinksAt(FrontCodec(), b)
  {
    hide RoundTrips, Extends, Canonical, AtLeast, HeadCodec, RolesCodec, Assignments;
    if FrontCodec().dec(b).Done? {
      HeadCanonical();
      AssignmentLaws();
      Reencode(HeadCodec(), b);
      var r1 := HeadCodec().dec(b).rest;
      RolesShrink(r1);
      Reencode(Assignments(), RolesCodec().dec(r1).rest);
    }
  }

  /** A count can never reach the flag: that many roles would overflow the body's own length. */
  lemma CountLeavesTheFlagFree(p: ServerPolicy)
    requires WellFormed(p)
    ensures |p.roles| < ROLE_ICON_FLAG && FrontCodec().fits(FrontOf(p))
  {
    hide RoundTrips, Extends, Canonical, AtLeast, HeadCodec, RoleCodec, Assignments, EncTails, EncAll, WithIcons,
      TailsFit;
    RoleLaws(WithIcons(p.roles));
    EncAllSize(RoleCodec(WithIcons(p.roles)), MIN_ROLE_BYTES, p.roles);
    assert Pow256(4) == 0x1_0000_0000;
    assert |Body(p)| >= |EncAll(RoleCodec(WithIcons(p.roles)), p.roles)|;
  }

  /** Reading the emoji tail, checking icons and reading the later tails is reading all four tails. */
  lemma TailsAreOneList(b: bytes)
    ensures DecTails(TailCodecs(), b) ==
      match DecTail(NamedCodec("emoji shortcode"), b)
      case Fail(e) => Fail(e)
      case Done(x, rest) =>
        (match DecTails(LaterTails(), rest) case Fail(e) => Fail(e) case Done(xs, rest') => Done([x] + xs, rest'))
  {
    assert TailCodecs()[1..] == LaterTails();
  }

  /** Every policy the format can carry comes back from its body: all tails, with icons or without. */
  lemma BodyRoundTrips(p: ServerPolicy)
    requires WellFormed(p)
    ensures Finish(DecBody(Body(p), p.sig)) == Ok(p)
  {
    hide RoundTrips, Extends, Canonical, AtLeast, FrontCodec, NamedCodec, LaterTails, EncTails, DecTails, TailsFit,
      IconsAreKnown, HeadCodec, RoleCodec, Assignments, TailCodecs, DecTail;
    CountLeavesTheFlagFree(p);
    FrontLaws();
    RoundTrip(FrontCodec(), FrontOf(p), EncTails(TailCodecs(), TailsOf(p)));
    TailCodecsAreGood();
    TailsRoundTrip(TailCodecs(), TailsOf(p));
    TailsAreOneList(EncTails(TailCodecs(), TailsOf(p)));
    var emojis := DecTail(NamedCodec("emoji shortcode"), EncTails(TailCodecs(), TailsOf(p)));
    var later := DecTails(LaterTails(), emojis.rest);
    assert [emojis.value] + later.value == TailsOf(p);
    assert Assemble(FrontOf(p), TailsOf(p), p.sig) == p;
  }

  /** Tails that decode fit, and can be written again in no more bytes. */
  lemma BodyShrinks(b: bytes, sig: bytes)
    requires Finish(DecBody(b, sig)).Ok? && |b| < Pow256(4) && |sig| == 64
    ensures var p := DecBody(b, sig).value; WellFormed(p) && |Body(p)| <= |b|
  {
    hide RoundTrips, Extends, Canonical, AtLeast, FrontCodec, NamedCodec, LaterTails, EncTails, DecTails, TailsFit,
      IconsAreKnown, HeadCodec, RoleCodec, Assignments, TailCodecs, DecTail, Pow256;
    FrontShrinks(b);
    var p, r1 := DecBody(b, sig).value, FrontCodec().dec(b).rest;
    FrontParts(p);
    TailCodecsAreGood();
    TailsAreOneList(r1);
    TailsShrink(TailCodecs(), r1);
    assert FrontOf(p) == FrontCodec().dec(b).value;
    assert TailsOf(p) == DecTails(TailCodecs(), r1).value;
  }

  lemma FrontParts(p: ServerPolicy)
    requires FrontCodec().fits(FrontOf(p))
    ensures HeadCodec().fits(FrontOf(p).0) && AllFit(RoleCodec(WithIcons(p.roles)), p.roles)
    ensures Assignments().fits(p.assignments)
  {
  }

  /**
   A policy is the outcome of some decoding exactly when it is well formed, and then
   its own encoding decodes to it; no accepted input is shorter than that encoding.
   */
  lemma PoliciesNormalise(b: bytes, p: ServerPolicy)
    ensures WellFormed(p) ==> Decode(Encode(p)) == Ok(p)
    ensures Decode(b) == Ok(p) ==> WellFormed(p) && |Encode(p)| <= |b|
  {
    hide RoundTrips, Extends, Canonical, AtLeast, Body, DecBody, Bytes, Fixed, WellFormed;
    BytesLaws();
    FixedLaws(64);
    var outer := Pair(Bytes(), Fixed(64));
    PairLaws(Bytes(), Fixed(64));
    if WellFormed(p) {
      assert Bytes().fits(Body(p)) && |p.sig| == 64 by { Measured(p); }
      OuterFits(Body(p), p.sig);
      RoundTrip(outer, (Body(p), p.sig), []);
      BodyRoundTrips(p);
    }
    if Decode(b) == Ok(p) {
      Reencode(outer, b);
      var v := outer.dec(b).value;
      BytesLength(v.0);
      BytesLength(Body(p));
      OuterParts(v);
      BodyShrinks(v.0, v.1);
      SigIsKept(v.0, v.1);
    }
  }

  lemma Measured(p: ServerPolicy)
    requires WellFormed(p)
    ensures Bytes().fits(Body(p)) && |p.sig| == 64
  {
    hide Body, Bytes, HeadCodec, RoleCodec, Assignments, TailsFit, IconsAreKnown;
  }

  lemma OuterFits(body: bytes, sig: bytes)
    requires Bytes().fits(body) && |sig| == 64
    ensures Pair(Bytes(), Fixed(64)).fits((body, sig))
    ensures Pair(Bytes(), Fixed(64)).enc((body, sig)) == Bytes().enc(body) + sig
  {
  }

  lemma OuterParts(v: (bytes, bytes))
    requires Pair(Bytes(), Fixed(64)).fits(v)
    ensures |v.0| < Pow256(4) && |v.1| == 64 && Pair(Bytes(), Fixed(64)).enc(v) == Bytes().enc(v.0) + v.1
  {
  }

  lemma BytesLength(v: bytes)
    ensures |Bytes().enc(v)| == 4 + |v|
  {
  }

  lemma SigIsKept(b: bytes, sig: bytes)
    ensures DecBody(b, sig).Done? ==> DecBody(b, sig).value.sig == sig
  {
    hide FrontCodec, NamedCodec, LaterTails, IconsAreKnown, DecTails, DecTail;
  }

  /** Two policies with one body differ at most in the signature over it. */
  lemma BodyIsInjective(p: ServerPolicy, q: ServerPolicy)
    requires WellFormed(p) && WellFormed(q) && Body(p) == Body(q)
    ensures p == q.(sig := p.sig)
  {
    hide Body, DecBody, WellFormed;
    BodyRoundTrips(p);
    BodyRoundTrips(q);
    SigIsFree(Body(p), p.sig, q.sig);
  }

  lemma SigIsFree(b: bytes, sig: bytes, other: bytes)
    requires DecBody(b, sig).Done? && DecBody(b, other).Done?
    ensures DecBody(b, sig).value == DecBody(b, other).value.(sig := sig)
  {
    hide FrontCodec, NamedCodec, LaterTails, IconsAreKnown, DecTails, DecTail;
  }

  // ----- older layouts -----

  /** The body as it was before icons and tails: plain counts, roles and assignments. */
  function FirstLayout(p: ServerPolicy): bytes {
    Pair(HeadCodec(), Pair(List(RoleCodec(false), MIN_ROLE_BYTES), Assignments())).enc(FrontOf(p))
  }

  /** The first `k` tails, each written out. */
  function EncFirst(cs: seq<Codec<Named>>, xs: seq<Named>, k: nat): bytes
    requires k <= |cs| == |xs|
  {
    if k == 0 then [] else cs[0].enc(xs[0]) + EncFirst(cs[1..], xs[1..], k - 1)
  }

  lemma {:induction false} TailsStopAt(cs: seq<Codec<Named>>, xs: seq<Named>, k: nat)
    requires k <= |cs| == |xs| && AllEmpty(xs[k..]) && (k > 0 ==> xs[k - 1] != [])
    ensures EncTails(cs, xs) == EncFirst(cs, xs, k)
  {
    if k == 0 {
      assert xs[0..] == xs;
    } else {
      assert xs[1..][k - 1..] == xs[k..];
      TailsStopAt(cs[1..], xs[1..], k - 1);
    }
  }

  lemma PlainRoles(roles: seq<Role>)
    requires !WithIcons(roles) && |roles| < ROLE_ICON_FLAG
    ensures RolesCodec().enc(roles) == List(RoleCodec(false), MIN_ROLE_BYTES).enc(roles)
  {
    hide RoleCodec, EncAll, BigEndian;
    assert Pow256(4) == 0x1_0000_0000;
    var raw := RawCount(roles);
    assert raw == |roles|;
    assert UInt(4).enc(raw) == BigEndian(|roles|, 4);
  }

  /**
   A policy that uses no icons and only the first `k` tails has the very bytes it had
   before icons and the other tails existed.
   */
  lemma OlderLayoutsAreKept(p: ServerPolicy, k: nat)
    requires !WithIcons(p.roles) && |p.roles| < ROLE_ICON_FLAG
    requires k <= 4 && AllEmpty(TailsOf(p)[k..]) && (k > 0 ==> TailsOf(p)[k - 1] != [])
    ensures Body(p) == FirstLayout(p) + EncFirst(TailCodecs(), TailsOf(p), k)
  {
    hide HeadCodec, RolesCodec, Assignments, TailCodecs, EncTails, EncFirst, List;
    PlainRoles(p.roles);
    TailsStopAt(TailCodecs(), TailsOf(p), k);
  }

  // ----- the writer and the reader -----

  /** The bytes of a tail, which is written only on a condition. */
  function Written(c: Codec<Named>, xs: Named, condition: bool): bytes {
    if condition then c.enc(xs) else []
  }

  lemma FourTails(p: ServerPolicy, buf: bytes)
    ensures buf + EncTails(TailCodecs(), TailsOf(p)) ==
      buf
      + Written(NamedCodec("emoji shortcode"), p.emojis,
                p.emojis != [] || p.stickers != [] || p.sounds != [] || p.nicknames != [])
      + Written(NamedCodec("sticker name"), p.stickers, p.stickers != [] || p.sounds != [] || p.nicknames != [])
      + Written(NamedCodec("sound name"), p.sounds, p.sounds != [] || p.nicknames != [])
      + Written(NicknameCodec(), p.nicknames, p.nicknames != [])
  {
    hide NamedCodec, NicknameCodec, EncTails, AllEmpty, Written;
    var cs, xs := TailCodecs(), TailsOf(p);
    TailStep(cs, xs);
    TailStep(cs[1..], xs[1..]);
    TailStep(cs[2..], xs[2..]);
    TailStep(cs[3..], xs[3..]);
    NothingLeft(cs[3..][1..], xs[3..][1..]);
    assert cs[1..][1..] == cs[2..] && cs[2..][1..] == cs[3..];
    assert xs[1..][1..] == xs[2..] && xs[2..][1..] == xs[3..];
    var w1, w2 := Written(cs[0], xs[0], !AllEmpty(xs)), Written(cs[1], xs[1], !AllEmpty(xs[1..]));
    var w3, w4 := Written(cs[2], xs[2], !AllEmpty(xs[2..])), Written(cs[3], xs[3], !AllEmpty(xs[3..]));
    assert EncTails(cs, xs) == w1 + (w2 + (w3 + (w4 + [])));
    Regroup(buf, w1, w2, w3, w4);
  }

  lemma Regroup(a: bytes, b: bytes, c: bytes, d: bytes, e: bytes)
    ensures a + (b + (c + (d + (e + [])))) == a + b + c + d + e
  {
    assert e + [] == e;
    assert b + (c + (d + e)) == b + c + d + e;
  }

  lemma NothingLeft(cs: seq<Codec<Named>>, xs: seq<Named>)
    requires |cs| == |xs| == 0
    ensures EncTails(cs, xs) == [] && AllEmpty(xs)
  {
  }

  lemma TailStep(cs: seq<Codec<Named>>, xs: seq<Named>)
    requires |cs| == |xs| > 0
    ensures EncTails(cs, xs) == Written(cs[0], xs[0], !AllEmpty(xs)) + EncTails(cs[1..], xs[1..])
    ensures AllEmpty(xs) <==> xs[0] == [] && AllEmpty(xs[1..])
  {
    assert xs == [xs[0]] + xs[1..];
  }

  method WriteFront(p: ServerPolicy) returns (out: bytes)
    ensures out == FrontCodec().enc(FrontOf(p))
  {
    hide HeadCodec, RoleCodec, EncAll, AssignmentCodec, List, UInt, RawCount, WithIcons;
    out := HeadCodec().enc(FrontOf(p).0) + UInt(4).enc(RawCount(p.roles));
    out := WriteMany(RoleCodec(WithIcons(p.roles)), p.roles, out);
    out := WriteList(AssignmentCodec(), MIN_ASSIGNMENT_BYTES, p.assignments, out);
  }

  /** The writer appends section after section, each tail only if it or a later one has entries. */
  method WriteBody(p: ServerPolicy) returns (out: bytes)
    ensures out == Body(p)
  {
    hide FrontCodec, EncTails, TailCodecs, List, Pair, EmojiName, Nickname, Id;
    out := WriteFront(p);
    FourTails(p, out);
    if p.emojis != [] || p.stickers != [] || p.sounds != [] || p.nicknames != [] {
      out := WriteList(Pair(EmojiName("emoji shortcode"), Id()), MIN_NAMED_ENTRY_BYTES, p.emojis, out);
    }
    if p.stickers != [] || p.sounds != [] || p.nicknames != [] {
      out := WriteList(Pair(EmojiName("sticker name"), Id()), MIN_NAMED_ENTRY_BYTES, p.stickers, out);
    }
    if p.sounds != [] || p.nicknames != [] {
      out := WriteList(Pair(EmojiName("sound name"), Id()), MIN_NAMED_ENTRY_BYTES, p.sounds, out);
    }
    if p.nicknames != [] {
      out := WriteList(Pair(Id(), Nickname()), MIN_NAMED_ENTRY_BYTES, p.nicknames, out);
    }
  }

  method ReadTail(c: Codec<(bytes, bytes)>, b: bytes) returns (r: Parse<Named>)
    ensures r == DecTail(List(c, MIN_NAMED_ENTRY_BYTES), b)
  {
    if b == [] {
      return Done([], []);
    }
    r := ReadList(c, MIN_NAMED_ENTRY_BYTES, b);
  }

  method ReadFront(b: bytes) returns (r: Parse<Front>)
    ensures r == FrontCodec().dec(b)
  {
    hide HeadCodec, RoleCodec, DecAll, UInt, MaxCount, AssignmentCodec;
    var head := HeadCodec().dec(b);
    if head.Fail? {
      return Fail(head.error);
    }
    var raw := UInt(4).dec(head.rest);
    if raw.Fail? {
      return Fail(raw.error);
    }
    if CountOf(raw.value) > MaxCount(|raw.rest|, MIN_ROLE_BYTES) {
      return Fail(LengthTooLarge(CountOf(raw.value)));
    }
    var roles := ReadMany(RoleCodec(Flagged(raw.value)), CountOf(raw.value), raw.rest);
    if roles.Fail? {
      return Fail(roles.error);
    }
    var assignments := ReadList(AssignmentCodec(), MIN_ASSIGNMENT_BYTES, roles.rest);
    if assignments.Fail? {
      return Fail(assignments.error);
    }
    r := Done((head.value, (roles.value, assignments.value)), assignments.rest);
  }

  /** The reader moves through the body: counts and guards, entries, icon check, tails while bytes remain. */
  method ReadBody(b: bytes, sig: bytes) returns (r: Parse<ServerPolicy>)
    ensures r == DecBody(b, sig)
  {
    hide FrontCodec, IconsAreKnown, List, Pair;
    var front := ReadFront(b);
    if front.Fail? {
      return Fail(front.error);
    }
    var emojis := ReadTail(Pair(EmojiName("emoji shortcode"), Id()), front.rest);
    if emojis.Fail? {
      return Fail(emojis.error);
    }
    if !IconsAreKnown(front.value.1.0, emojis.value) {
      return Fail(Invalid("role icon"));
    }
    ThreeTails(emojis.rest);
    var stickers := ReadTail(Pair(EmojiName("sticker name"), Id()), emojis.rest);
    if stickers.Fail? {
      return Fail(stickers.error);
    }
    var sounds := ReadTail(Pair(EmojiName("sound name"), Id()), stickers.rest);
    if sounds.Fail? {
      return Fail(sounds.error);
    }
    var nicknames := ReadTail(Pair(Id(), Nickname()), sounds.rest);
    if nicknames.Fail? {
      return Fail(nicknames.error);
    }
    var tails := [emojis.value, stickers.value, sounds.value, nicknames.value];
    assert [emojis.value] + [stickers.value, sounds.value, nicknames.value] == tails;
    r := Done(Assemble(front.value, tails, sig), nicknames.rest);
  }

  function Three(b: bytes): Parse<seq<Named>> {
    var (stickers, r1) :- DecTail(NamedCodec("sticker name"), b);
    var (sounds, r2) :- DecTail(NamedCodec("sound name"), r1);
    var (nicknames, r3) :- DecTail(NicknameCodec(), r2);
    Done([stickers, sounds, nicknames], r3)
  }

  lemma ThreeTails(b: bytes)
    ensures DecTails(LaterTails(), b) == Three(b)
  {
    hide NamedCodec, NicknameCodec, DecTail, DecTails;
    var cs := LaterTails();
    assert cs[1..][1..] == cs[2..] && cs[2..][1..] == cs[3..];
    DecStep(cs, b);
    var p1 := DecTail(cs[0], b);
    if p1.Done? {
      DecStep(cs[1..], p1.rest);
      var p2 := DecTail(cs[1], p1.rest);
      if p2.Done? {
        DecStep(cs[2..], p2.rest);
        var p3 := DecTail(cs[2], p2.rest);
        if p3.Done? {
          assert DecTails(cs[3..], p3.rest) == Done([], p3.rest) by { DecNothing(cs[3..], p3.rest); }
          assert [p1.value] + ([p2.value] + ([p3.value] + [])) == [p1.value, p2.value, p3.value];
        }
      }
    }
  }

  lemma DecNothing(cs: seq<Codec<Named>>, b: bytes)
    requires cs == []
    ensures DecTails(cs, b) == Done([], b)
  {
  }

  lemma DecStep(cs: seq<Codec<Named>>, b: bytes)
    requires cs != []
    ensures DecTails(cs, b) ==
      match DecTail(cs[0], b)
      case Fail(e) => Fail(e)
      case Done(x, rest) =>
        (match DecTails(cs[1..], rest) case Fail(e) => Fail(e) case Done(xs, rest') => Done([x] + xs, rest'))
  {
  }
}
