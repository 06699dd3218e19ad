/** Invite tokens and the `dante-invite:<hex>` links that carry them. */
module Invite {
  import opened Common
  import opened Wire
  import opened Packets

  const TOKEN_VERSION: byte := 1
  const LINK_PREFIX := "dante-invite:"

  datatype InviteToken = InviteToken(
    serverRoot: bytes, hostId: bytes, channelId: bytes, relayHint: bytes, expiresMs: nat, maxUses: nat,
      nonce: bytes, sig: bytes)

  // ----- the token codec -----

  type BodyParts = ((), (bytes, (bytes, (bytes, (bytes, (nat, (nat, bytes)))))))

  function Version(): Codec<()> { Marker(TOKEN_VERSION, Invalid("invite token version")) }

  /** Everything the signature covers. */
  function BodyCodec(): Codec<BodyParts> {
    Pair(Version(), Pair(Id(), Pair(Id(), Pair(Id(), Pair(Str(), Pair(UInt(8), Pair(UInt(4), Fixed(8))))))))
  }

  function TokenShape(): Shape<(BodyParts, bytes), InviteToken> {
    Shape(Pair(Framed(BodyCodec()), Fixed(64)),
          (t: (BodyParts, bytes)) =>
            InviteToken(t.0.1.0, t.0.1.1.0, t.0.1.1.1.0, t.0.1.1.1.1.0, t.0.1.1.1.1.1.0, t.0.1.1.1.1.1.1.0,
              t.0.1.1.1.1.1.1.1, t.1),
          (v: InviteToken) =>
            (((), (v.serverRoot, (v.hostId, (v.channelId, (v.relayHint, (v.expiresMs, (v.maxUses, v.nonce))))))),
              v.sig),
          (v: InviteToken) => true)
  }

  function TokenCodec(): Codec<InviteToken> { Shaped(TokenShape()) }

  lemma BodyLaws()
    ensures Lawful(BodyCodec()) && Canonical(BodyCodec())
  {
    hide RoundTrips, Extends, Canonical, AtLeast, Pair, Id, Fixed, Str, UInt, Marker;
    IdLaws();
    FixedLaws(8);
    StrLaws();
    UIntLaws(8);
    UIntLaws(4);
    MarkerLaws(TOKEN_VERSION, Invalid("invite token version"));
    var p1 := Pair(UInt(4), Fixed(8));
    var p2 := Pair(UInt(8), p1);
    var p3 := Pair(Str(), p2);
    var p4 := Pair(Id(), p3);
    var p5 := Pair(Id(), p4);
    var p6 := Pair(Id(), p5);
    PairLaws(UInt(4), Fixed(8));
    PairLaws(UInt(8), p1);
    PairLaws(Str(), p2);
    PairLaws(Id(), p3);
    PairLaws(Id(), p4);
    PairLaws(Id(), p5);
    PairLaws(Version(), p6);
  }

  lemma TokenShapeIsExact()
    ensures Exact(TokenShape())
  {
    hide Pair, Framed, BodyCodec, Fixed;
    var s := TokenShape();
    forall x: (BodyParts, bytes) ensures ExactParts(s, x) {
      assert x.0.0 == ();
    }
  }

  lemma TokenLaws()
    ensures Lawful(TokenCodec()) && Canonical(TokenCodec())
  {
    hide RoundTrips, Extends, Canonical, AtLeast, Pair, Framed, BodyCodec, Fixed;
    BodyLaws();
    FramedLawful(BodyCodec());
    FramedCanonical(BodyCodec());
    FixedLaws(64);
    PairLaws(Framed(BodyCodec()), Fixed(64));
    TokenShapeIsExact();
    ShapeLawful(TokenShape());
    ShapeCanonical(TokenShape());
  }

  /** `InviteToken::decode` accepts exactly the encodings of tokens, and inverts them. */
  lemma TokensAreExact(b: bytes, v: InviteToken)
    ensures Finish(TokenCodec().dec(b)) == Ok(v) <==> TokenCodec().fits(v) && b == TokenCodec().enc(v)
  {
    TokenLaws();
    ExactInverse(TokenCodec(), b, v);
  }

  // ----- hex -----

  function Nibble(n: nat): char
    requires n < 16
  {
    if n <= 9 then '0' + n as char else 'a' + (n - 10) as char
  }

  function Unnibble(c: char): Option<nat> {
    if '0' <= c <= '9' then Some((c - '0') as int)
    else if 'a' <= c <= 'f' then Some((c - 'a') as int + 10)
    else if 'A' <= c <= 'F' then Some((c - 'A') as int + 10)
    else None
  }

  function Hex(b: bytes): string {
    if b == [] then "" else [Nibble(b[0] / 16), Nibble(b[0] % 16)] + Hex(b[1..])
  }

  function UnHex(s: string): Option<bytes> {
    if s == "" then Some([])
    else if |s| == 1 || Unnibble(s[0]).None? || Unnibble(s[1]).None? then None
    else
      var rest := UnHex(s[2..]);
      if rest.None? then None else Some([Unnibble(s[0]).value * 16 + Unnibble(s[1]).value] + rest.value)
  }

  function LowerChar(c: char): char {
    if 'A' <= c <= 'F' then 'a' + (c - 'A') else c
  }

  function Lower(s: string): string {
    if s == "" then "" else [LowerChar(s[0])] + Lower(s[1..])
  }

  lemma NibbleInverse(c: char, n: nat)
    requires n < 16
    ensures Unnibble(c) == Some(n) <==> LowerChar(c) == Nibble(n)
    ensures Unnibble(c).Some? ==> Unnibble(c).value < 16
  {
  }

  lemma LowerStep(s: string)
    requires |s| >= 2
    ensures Lower(s) == [LowerChar(s[0]), LowerChar(s[1])] + Lower(s[2..])
  {
    assert Lower(s) == [LowerChar(s[0])] + ([LowerChar(s[1])] + Lower(s[1..][1..]));
    assert s[1..][1..] == s[2..];
  }

  /** Two characters read as the byte `x` exactly when they spell it. */
  lemma DigitsAreExact(hi: char, lo: char, x: byte)
    ensures Unnibble(hi).Some? && Unnibble(lo).Some? && Unnibble(hi).value * 16 + Unnibble(lo).value == x
       <==> LowerChar(hi) == Nibble(x / 16) && LowerChar(lo) == Nibble(x % 16)
  {
    NibbleInverse(hi, x / 16);
    NibbleInverse(lo, x % 16);
  }

  lemma {:induction false} SpellsWhatItReads(s: string)
    ensures UnHex(s).Some? ==> Lower(s) == Hex(UnHex(s).value)
    decreases |s|
  {
    if UnHex(s).Some? && s != "" {
      var b := UnHex(s).value;
      SpellsWhatItReads(s[2..]);
      LowerStep(s);
      DigitsAreExact(s[0], s[1], b[0]);
      assert b[1..] == UnHex(s[2..]).value;
    }
  }

  lemma {:induction false} ReadsWhatItSpells(s: string, b: bytes)
    requires Lower(s) == Hex(b)
    ensures UnHex(s) == Some(b)
    decreases |s|
  {
    LowerLength(s);
    HexLength(b);
    if b != [] {
      LowerStep(s);
      assert Lower(s)[0] == Hex(b)[0] && Lower(s)[1] == Hex(b)[1];
      DigitsAreExact(s[0], s[1], b[0]);
      assert Lower(s)[2..] == Hex(b)[2..];
      ReadsWhatItSpells(s[2..], b[1..]);
      assert b == [b[0]] + b[1..];
    }
  }

  /** A string reads as `b` exactly when it spells `b` in hex, in either case. */
  lemma UnHexIsExact(s: string, b: bytes)
    ensures UnHex(s) == Some(b) <==> Lower(s) == Hex(b)
  {
    SpellsWhatItReads(s);
    if Lower(s) == Hex(b) {
      ReadsWhatItSpells(s, b);
    }
  }

  /** Appends two digits per byte. */
  method WriteHex(raw: bytes, prefix: string) returns (s: string)
    ensures s == prefix + Hex(raw)
  {
    s := prefix;
    for i := 0 to |raw|
      invariant s + Hex(raw[i..]) == prefix + Hex(raw)
    {
      ghost var before := s;
      assert raw[i..][1..] == raw[i + 1..];
      assert Hex(raw[i..]) == [Nibble(raw[i] / 16), Nibble(raw[i] % 16)] + Hex(raw[i + 1..]);
      s := s + [Nibble(raw[i] / 16)] + [Nibble(raw[i] % 16)];
      assert s + Hex(raw[i + 1..]) == before + Hex(raw[i..]);
    }
  }

  /** Reads the digits in pairs. */
  method ReadHex(hex: string) returns (r: Option<bytes>)
    requires |hex| % 2 == 0
    ensures r == UnHex(hex)
  {
    var raw: bytes, i := [], 0;
    assert hex[0..] == hex;
    while i < |hex|
      invariant 0 <= i <= |hex| && i % 2 == 0
      invariant UnHex(hex).None? <==> UnHex(hex[i..]).None?
      invariant UnHex(hex).Some? ==> UnHex(hex).value == raw + UnHex(hex[i..]).value
    {
      var hi, lo := Unnibble(hex[i]), Unnibble(hex[i + 1]);
      assert hex[i..][2..] == hex[i + 2..];
      if hi.None? || lo.None? {
        return None;
      }
      ghost var tail := UnHex(hex[i + 2..]);
      var x: bytes := [hi.value * 16 + lo.value];
      assert tail.Some? ==> raw + (x + tail.value) == (raw + x) + tail.value;
      raw := raw + [hi.value * 16 + lo.value];
      i := i + 2;
    }
    assert hex[i..] == "" && raw + [] == raw;
    r := Some(raw);
  }

  // ----- links -----

  /** `char::is_whitespace` (the Unicode property White_Space). */
  predicate IsWhite(c: char) {
    var n := c as int;
    0x9 <= n <= 0xD || n == 0x20 || n == 0x85 || n == 0xA0 || n == 0x1680 || 0x2000 <= n <= 0x200A
    || n == 0x2028 || n == 0x2029 || n == 0x202F || n == 0x205F || n == 0x3000
  }

  function Trim(s: string): string {
    if s == "" then ""
    else if IsWhite(s[0]) then Trim(s[1..])
    else if IsWhite(s[|s| - 1]) then Trim(s[..|s| - 1])
    else s
  }

  /** The part of a link that should be hex: outer blanks and one prefix removed. */
  function Payload(s: string): string {
    var t := Trim(s);
    Trim(if LINK_PREFIX <= t then t[|LINK_PREFIX|..] else t)
  }

  function ToLink(v: InviteToken): string {
    LINK_PREFIX + Hex(TokenCodec().enc(v))
  }

  function FromLink(s: string): Option<InviteToken> {
    var hex := Payload(s);
    if |hex| % 2 != 0 || hex == "" then None
    else
      var raw := UnHex(hex);
      if raw.None? then None
      else match Finish(TokenCodec().dec(raw.value)) case Ok(v) => Some(v) case Err(_) => None
  }

  method RenderLink(v: InviteToken) returns (s: string)
    ensures s == ToLink(v)
  {
    s := WriteHex(TokenCodec().enc(v), LINK_PREFIX);
  }

  method ParseLink(s: string) returns (r: Option<InviteToken>)
    ensures r == FromLink(s)
  {
    hide TokenCodec;
    var hex := Payload(s);
    if |hex| % 2 != 0 || hex == "" {
      return None;
    }
    var raw := ReadHex(hex);
    if raw.None? {
      return None;
    }
    match Finish(TokenCodec().dec(raw.value))
    case Ok(v) => r := Some(v);
    case Err(_) => r := None;
  }

  /** A link parses to a token exactly when its payload spells the token's encoding in hex. */
  lemma LinksAreExact(s: string, v: InviteToken)
    ensures FromLink(s) == Some(v) <==> TokenCodec().fits(v) && Lower(Payload(s)) == Hex(TokenCodec().enc(v))
  {
    hide TokenCodec;
    var hex := Payload(s);
    UnHexIsExact(hex, TokenCodec().enc(v));
    HexLength(TokenCodec().enc(v));
    LowerLength(hex);
    TokenIsNotEmpty(v);
    if UnHex(hex).Some? {
      UnHexIsExact(hex, UnHex(hex).value);
      TokensAreExact(UnHex(hex).value, v);
    }
    TokensAreExact(TokenCodec().enc(v), v);
  }

  lemma TokenIsNotEmpty(v: InviteToken)
    ensures TokenCodec().enc(v) != []
  {
    hide BodyCodec, Fixed;
    assert |TokenCodec().enc(v)| >= |BigEndian(|BodyCodec().enc(TokenShape().unwrap(v).0)|, 4)|;
  }

  lemma {:induction s} TrimOfDark(s: string)
    requires s != "" && !IsWhite(s[0]) && !IsWhite(s[|s| - 1])
    ensures Trim(s) == s
  {
  }

  lemma {:induction b} HexIsDark(b: bytes, i: nat)
    requires i < |Hex(b)|
    ensures !IsWhite(Hex(b)[i]) && Lower(Hex(b)) == Hex(b) && Hex(b)[i] != '-'
  {
    if i >= 2 {
      HexIsDark(b[1..], i - 2);
    }
    LowerStep(Hex(b));
    assert Hex(b)[2..] == Hex(b[1..]);
    if |b| > 1 {
      HexIsDark(b[1..], 0);
    }
  }

  /** The links a token renders to parse back to it, with the prefix or without it. */
  lemma LinkRoundTrip(v: InviteToken)
    requires TokenCodec().fits(v)
    ensures FromLink(ToLink(v)) == Some(v)
    ensures FromLink(Hex(TokenCodec().enc(v))) == Some(v)
  {
    hide TokenCodec;
    var hex := Hex(TokenCodec().enc(v));
    TokenIsNotEmpty(v);
    HexLength(TokenCodec().enc(v));
    HexIsDark(TokenCodec().enc(v), 0);
    HexIsDark(TokenCodec().enc(v), |hex| - 1);
    TrimOfDark(hex);
    TrimOfDark(LINK_PREFIX + hex);
    assert (LINK_PREFIX + hex)[|LINK_PREFIX|..] == hex;
    assert LINK_PREFIX[5] == '-';
    if |hex| > 5 {
      HexIsDark(TokenCodec().enc(v), 5);
    }
    LinksAreExact(ToLink(v), v);
    LinksAreExact(hex, v);
  }

  lemma {:induction b} HexLength(b: bytes)
    ensures |Hex(b)| == 2 * |b|
  {
  }

  lemma {:induction s} LowerLength(s: string)
    ensures |Lower(s)| == |s|
  {
  }
}
