/**
 Exactly which strings are links to a token: blanks around it, the prefix or not, blanks
 after the prefix, and hex digits in either case.
 */
module Links {
  import opened Common
  import opened Wire
  import opened Flat
  import opened Invite
  import opened Layouts

  const DIGITS := "0123456789abcdef"
  const CAPITALS := "0123456789ABCDEF"

  /** Two digits per byte, the high one first. */
  predicate SpellsHex(s: string, b: bytes) {
    |s| == 2 * |b| && forall i :: 0 <= i < |b| ==> IsDigit(s[2 * i], b[i] / 16) && IsDigit(s[2 * i + 1], b[i] % 16)
  }

  predicate IsDigit(c: char, n: nat) { n < 16 && (c == DIGITS[n] || c == CAPITALS[n]) }

  predicate Blank(s: string) { forall i :: 0 <= i < |s| ==> IsWhite(s[i]) }

  predicate Dark(s: string) { s == "" || (!IsWhite(s[0]) && !IsWhite(s[|s| - 1])) }

  // ----- trimming -----

  lemma BlankSum(s: string, t: string)
    requires Blank(s) && Blank(t)
    ensures Blank(s + t)
  {
  }

  lemma OneBlank(c: char)
    requires IsWhite(c)
    ensures Blank([c])
  {
  }

  /** One more character is trimmed off on the left or on the right. */
  lemma TrimStep(s: string)
    requires s != "" && (IsWhite(s[0]) || IsWhite(s[|s| - 1]))
    ensures Trim(s) == if IsWhite(s[0]) then Trim(s[1..]) else Trim(s[..|s| - 1])
  {
    hide IsWhite;
  }

  lemma AddLeft(c: char, before: string, s: string, after: string)
    ensures [c] + (before + s + after) == ([c] + before) + s + after
  {
  }

  lemma AddRight(c: char, before: string, s: string, after: string)
    ensures (before + s + after) + [c] == before + s + (after + [c])
  {
  }

  /** What is trimmed off is blank, and what is left starts and ends dark. */
  lemma {:induction false} TrimLeaves(s: string) returns (before: string, after: string)
    ensures s == before + Trim(s) + after && Blank(before) && Blank(after) && Dark(Trim(s))
    decreases |s|
  {
    if s == "" || (!IsWhite(s[0]) && !IsWhite(s[|s| - 1])) {
      before, after := "", "";
    } else {
      hide IsWhite, Trim, Blank, Dark;
      TrimStep(s);
      if IsWhite(s[0]) {
        var b, a := TrimLeaves(s[1..]);
        assert s == [s[0]] + s[1..];
        AddLeft(s[0], b, Trim(s[1..]), a);
        OneBlank(s[0]);
        BlankSum([s[0]], b);
        before, after := [s[0]] + b, a;
      } else {
        var last := s[|s| - 1];
        var b, a := TrimLeaves(s[..|s| - 1]);
        assert s == s[..|s| - 1] + [last];
        AddRight(last, b, Trim(s[..|s| - 1]), a);
        OneBlank(last);
        BlankSum(a, [last]);
        before, after := b, a + [last];
      }
    }
  }

  lemma {:induction false} TrimTakesBlanks(before: string, s: string, after: string)
    requires Blank(before) && Dark(s) && Blank(after)
    ensures Trim(before + s + after) == s
    decreases |before|, |after|
  {
    var all := before + s + after;
    if before != "" {
      assert all[1..] == before[1..] + s + after;
      assert all[0] == before[0];
      TrimTakesBlanks(before[1..], s, after);
    } else if s == "" {
      BlankTrims(after);
      assert all == after;
    } else if after != "" {
      assert all[..|all| - 1] == before + s + after[..|after| - 1];
      assert all[0] == s[0] && all[|all| - 1] == after[|after| - 1];
      TrimTakesBlanks(before, s, after[..|after| - 1]);
    } else {
      assert all == s;
    }
  }

  lemma {:induction false} BlankTrims(s: string)
    requires Blank(s)
    ensures Trim(s) == ""
  {
    if s != "" {
      BlankTrims(s[1..]);
    }
  }

  // ----- hex -----

  lemma DigitIs(c: char, n: nat)
    requires n < 16
    ensures LowerChar(c) == Nibble(n) <==> IsDigit(c, n)
  {
    assert DIGITS[n] == Nibble(n) by { NibbleIs(n); }
    assert n >= 10 ==> CAPITALS[n] == 'A' + (n - 10) as char by { CapitalIs(n); }
    assert n < 10 ==> CAPITALS[n] == DIGITS[n];
  }

  lemma NibbleIs(n: nat)
    requires n < 16
    ensures Nibble(n) == DIGITS[n]
  {
    if n < 8 {
      assert n == 0 || n == 1 || n == 2 || n == 3 || n == 4 || n == 5 || n == 6 || n == 7;
    } else {
      assert n == 8 || n == 9 || n == 10 || n == 11 || n == 12 || n == 13 || n == 14 || n == 15;
    }
  }

  lemma CapitalIs(n: nat)
    requires n < 16
    ensures n >= 10 ==> CAPITALS[n] == 'A' + (n - 10) as char
  {
    assert n < 10 || n == 10 || n == 11 || n == 12 || n == 13 || n == 14 || n == 15;
  }

  lemma {:induction false} HexIsSpelled(s: string, b: bytes)
    ensures Lower(s) == Hex(b) <==> SpellsHex(s, b)
    decreases |b|
  {
    LowerLength(s);
    HexLength(b);
    if b != [] && |s| == 2 * |b| {
      hide IsDigit, Nibble, LowerChar;
      var x, rest := b[0], s[2..];
      HexIsSpelled(rest, b[1..]);
      LowerStep(s);
      DigitIs(s[0], x / 16);
      DigitIs(s[1], x % 16);
      FirstByte(s, b);
      assert Hex(b)[..2] == [Nibble(x / 16), Nibble(x % 16)] && Hex(b)[2..] == Hex(b[1..]);
      assert Lower(s)[..2] == [LowerChar(s[0]), LowerChar(s[1])] && Lower(s)[2..] == Lower(rest);
      assert Lower(s) == Lower(s)[..2] + Lower(s)[2..] && Hex(b) == Hex(b)[..2] + Hex(b)[2..];
    }
  }

  lemma FirstByte(s: string, b: bytes)
    requires b != [] && |s| == 2 * |b|
    ensures SpellsHex(s, b) <==>
      IsDigit(s[0], b[0] / 16) && IsDigit(s[1], b[0] % 16) && SpellsHex(s[2..], b[1..])
  {
    hide IsDigit;
    var rest, tail := s[2..], b[1..];
    assert forall i :: 0 <= i < |tail| ==> tail[i] == b[i + 1] && rest[2 * i] == s[2 * (i + 1)];
    assert forall i :: 0 <= i < |tail| ==> rest[2 * i + 1] == s[2 * (i + 1) + 1];
    if SpellsHex(s, b) {
      assert IsDigit(s[2 * 0], b[0] / 16) && IsDigit(s[2 * 0 + 1], b[0] % 16);
      forall i | 0 <= i < |tail| ensures IsDigit(rest[2 * i], tail[i] / 16) && IsDigit(rest[2 * i + 1], tail[i] % 16) {
        assert IsDigit(s[2 * (i + 1)], b[i + 1] / 16) && IsDigit(s[2 * (i + 1) + 1], b[i + 1] % 16);
      }
    }
    if IsDigit(s[0], b[0] / 16) && IsDigit(s[1], b[0] % 16) && SpellsHex(rest, tail) {
      forall i | 0 <= i < |b| ensures IsDigit(s[2 * i], b[i] / 16) && IsDigit(s[2 * i + 1], b[i] % 16) {
        if i > 0 {
          assert IsDigit(rest[2 * (i - 1)], tail[i - 1] / 16) && IsDigit(rest[2 * (i - 1) + 1], tail[i - 1] % 16);
        }
      }
    }
  }

  lemma SpelledIsDark(s: string, b: bytes)
    requires SpellsHex(s, b) && b != []
    ensures Dark(s) && !("dante-invite:" <= s)
  {
    var last := |b| - 1;
    assert IsDigit(s[2 * 0], b[0] / 16) && IsDigit(s[2 * 0 + 1], b[0] % 16);
    assert IsDigit(s[2 * last + 1], b[last] % 16);
    DigitsAreDark(s[0], b[0] / 16);
    DigitsAreDark(s[|s| - 1], b[last] % 16);
    if "dante-invite:" <= s {
      assert s[2] == 'n' && s[2 * 1] == s[2];
      assert IsDigit(s[2 * 1], b[1] / 16);
      DigitsAreDark(s[2], b[1] / 16);
    }
  }

  lemma DigitsAreDark(c: char, n: nat)
    requires IsDigit(c, n)
    ensures !IsWhite(c) && c != 'n'
  {
    DigitIs(c, n);
  }

  // ----- links -----

  /** A string as a link: blanks, perhaps the prefix and more blanks, the digits, and blanks. */
  predicate Reads(s: string, before: string, prefixed: bool, between: string, digits: string, after: string) {
    && Blank(before) && Blank(between) && Blank(after)
    && s == before + (if prefixed then "dante-invite:" + between + digits else digits) + after
  }

  lemma PayloadOf(s: string, before: string, prefixed: bool, between: string, digits: string, after: string)
    requires Reads(s, before, prefixed, between, digits, after)
    requires digits != "" && Dark(digits) && !("dante-invite:" <= digits)
    ensures Payload(s) == digits
  {
    var inner := if prefixed then "dante-invite:" + between + digits else digits;
    TrimTakesBlanks(before, inner, after);
    if prefixed {
      assert inner[|LINK_PREFIX|..] == between + digits + "";
      TrimTakesBlanks(between, digits, "");
    } else {
      assert digits == "" + digits + "";
      TrimTakesBlanks("", digits, "");
    }
  }

  lemma PayloadWas(s: string)
    returns (before: string, prefixed: bool, between: string, after: string)
    ensures Reads(s, before, prefixed, between, Payload(s), after)
  {
    hide Trim, IsWhite, Blank, Dark;
    var after0, after1;
    before, after0 := TrimLeaves(s);
    var t := Trim(s);
    prefixed := "dante-invite:" <= t;
    if prefixed {
      var rest := t[|LINK_PREFIX|..];
      between, after1 := TrimLeaves(rest);
      after := after1 + after0;
      BlankSum(after1, after0);
      assert t == "dante-invite:" + rest;
      Rejoin(before, "dante-invite:", between, Trim(rest), after1, after0);
    } else {
      between, after := "", after0;
      assert Trim(t) == t by {
        TrimTakesBlanks("", t, "") by { NoBlank(); }
        assert "" + t + "" == t;
      }
      NoBlank();
    }
  }

  lemma NoBlank()
    ensures Blank("")
  {
  }

  lemma Rejoin(a: string, p: string, b: string, s: string, c: string, d: string)
    ensures a + (p + (b + s + c)) + d == a + (p + b + s) + (c + d)
  {
    assert p + (b + s + c) == (p + b + s) + c;
  }

  /** A string parses to a token exactly if it reads as the token's bytes in hex. */
  lemma LinksAreSpelled(s: string, v: InviteToken)
    ensures FromLink(s) == Some(v) <==>
      TokenFields(v) && exists before, prefixed, between, digits, after ::
        Reads(s, before, prefixed, between, digits, after) && SpellsHex(digits, Sized(TokenBody(v)) + v.sig)
  {
    hide TokenCodec, TokenFields, TokenBody, SpellsHex, FromLink, Payload, Reads, Sized;
    var raw := Sized(TokenBody(v)) + v.sig;
    assert raw != [] by { TokenIsNotEmpty(v); TokenLayout(v); }
    LinksAreExact(s, v);
    TokenLayout(v);
    if FromLink(s) == Some(v) {
      var before, prefixed, between, after := PayloadWas(s);
      HexIsSpelled(Payload(s), raw);
      assert Reads(s, before, prefixed, between, Payload(s), after);
    }
    if before, prefixed, between, digits, after
      :| Reads(s, before, prefixed, between, digits, after) && SpellsHex(digits, raw)
    {
      SpelledIsDark(digits, raw);
      SpelledLength(digits, raw);
      PayloadOf(s, before, prefixed, between, digits, after);
      HexIsSpelled(digits, raw);
    }
  }

  lemma SpelledLength(s: string, b: bytes)
    requires SpellsHex(s, b) && b != []
    ensures s != ""
  {
  }
}
