/**
 What the byte-level string checks mean in terms of code points: the strings that are read
 are the UTF-8 encodings of Unicode scalar values (section 3 of RFC 3629), and a nickname
 holds no control character.
 */
module Unicode {
  import opened Common
  import opened Wire
  import opened Policy

  /** Every code point but the surrogates. */
  predicate IsScalar(c: nat) { c < 0xD800 || 0xE000 <= c < 0x11_0000 }

  function EncodeScalar(c: nat): bytes
    requires IsScalar(c)
  {
    if c < 0x80 then [c]
    else if c < 0x800 then [0xC0 + c / 64, 0x80 + c % 64]
    else if c < 0x1_0000 then [0xE0 + c / 4096, 0x80 + c / 64 % 64, 0x80 + c % 64]
    else [0xF0 + c / 262144, 0x80 + c / 4096 % 64, 0x80 + c / 64 % 64, 0x80 + c % 64]
  }

  predicate AllScalar(cs: seq<nat>) { forall i :: 0 <= i < |cs| ==> IsScalar(cs[i]) }

  function EncodeText(cs: seq<nat>): bytes
    requires AllScalar(cs)
  {
    if cs == [] then [] else EncodeScalar(cs[0]) + EncodeText(cs[1..])
  }

  /** One more character in front changes nothing about the rest. */
  lemma ScalarInFront(c: nat, rest: bytes)
    requires IsScalar(c)
    ensures Utf8(EncodeScalar(c) + rest) <==> Utf8(rest)
  {
    var e := EncodeScalar(c);
    assert (e + rest)[|e|..] == rest;
  }

  lemma {:induction false} EncodedIsUtf8(cs: seq<nat>)
    requires AllScalar(cs)
    ensures Utf8(EncodeText(cs))
  {
    if cs != [] {
      EncodedIsUtf8(cs[1..]);
      ScalarInFront(cs[0], EncodeText(cs[1..]));
    }
  }

  /** A valid string starts with a scalar value, and what follows it is valid. */
  lemma FirstIsEncoded(b: bytes) returns (c: nat)
    requires b != [] && Utf8(b)
    ensures IsScalar(c) && EncodeScalar(c) <= b && Utf8(b[|EncodeScalar(c)|..])
  {
    var lead: nat := b[0];
    if lead <= 0x7F {
      c := lead;
    } else if lead <= 0xDF {
      c := TwoDigits(lead - 0xC0, b[1] - 0x80);
    } else if lead <= 0xEF {
      c := ThreeDigits(lead - 0xE0, b[1] - 0x80, b[2] - 0x80);
    } else {
      c := FourDigits(lead - 0xF0, b[1] - 0x80, b[2] - 0x80, b[3] - 0x80);
    }
  }

  lemma TwoDigits(x: nat, y: nat) returns (c: nat)
    requires y < 64
    ensures c == x * 64 + y && c / 64 == x && c % 64 == y
  {
    c := x * 64 + y;
  }

  lemma ThreeDigits(x: nat, y: nat, z: nat) returns (c: nat)
    requires y < 64 && z < 64
    ensures c == x * 4096 + y * 64 + z && c / 4096 == x && c / 64 % 64 == y && c % 64 == z
  {
    var d := TwoDigits(x, y);
    c := TwoDigits(d, z);
  }

  lemma FourDigits(x: nat, y: nat, z: nat, w: nat) returns (c: nat)
    requires y < 64 && z < 64 && w < 64
    ensures c == x * 262144 + y * 4096 + z * 64 + w
    ensures c / 262144 == x && c / 4096 % 64 == y && c / 64 % 64 == z && c % 64 == w
  {
    var d := ThreeDigits(x, y, z);
    c := TwoDigits(d, w);
  }

  lemma {:induction false} DecodesAs(b: bytes) returns (cs: seq<nat>)
    requires Utf8(b)
    ensures AllScalar(cs) && b == EncodeText(cs)
    decreases |b|
  {
    if b == [] {
      cs := [];
    } else {
      var c := FirstIsEncoded(b);
      var rest := DecodesAs(b[|EncodeScalar(c)|..]);
      cs := [c] + rest;
      assert cs[1..] == rest;
    }
  }

  /** A string is accepted exactly if it encodes some scalar values. */
  lemma Utf8IsExact(b: bytes)
    ensures Utf8(b) <==> exists cs :: AllScalar(cs) && b == EncodeText(cs)
  {
    if Utf8(b) {
      var cs := DecodesAs(b);
    }
    if cs :| AllScalar(cs) && b == EncodeText(cs) {
      EncodedIsUtf8(cs);
    }
  }

  // ----- control characters -----

  /** The general category Cc. */
  predicate IsControl(c: nat) { c < 0x20 || 0x7F <= c <= 0x9F }

  lemma ControlInFront(c: nat, rest: bytes)
    requires IsScalar(c)
    ensures NoControl(EncodeScalar(c) + rest) <==> !IsControl(c) && NoControl(rest)
  {
    var e := EncodeScalar(c);
    var b := e + rest;
    assert forall i :: 0 <= i < |rest| ==> b[|e| + i] == rest[i];
    if NoControl(b) {
      forall i | 0 <= i < |rest|
        ensures rest[i] >= 0x20 && rest[i] != 0x7F && !(rest[i] == 0xC2 && i + 1 < |rest| && rest[i + 1] <= 0x9F)
      {
        assert b[|e| + i] == rest[i];
        assert i + 1 < |rest| ==> b[|e| + (i + 1)] == rest[i + 1];
      }
      assert b[0] == e[0];
      assert |e| > 1 ==> b[1] == e[1];
    }
    if !IsControl(c) && NoControl(rest) {
      forall i | 0 <= i < |b|
        ensures b[i] >= 0x20 && b[i] != 0x7F && !(b[i] == 0xC2 && i + 1 < |b| && b[i + 1] <= 0x9F)
      {
        if i < |e| {
          assert b[i] == e[i];
          assert i + 1 < |e| ==> b[i + 1] == e[i + 1];
        } else {
          assert b[i] == rest[i - |e|];
          assert i + 1 < |b| ==> b[i + 1] == rest[i + 1 - |e|];
        }
      }
    }
  }

  lemma {:induction false} NoControlIsExact(cs: seq<nat>)
    requires AllScalar(cs)
    ensures NoControl(EncodeText(cs)) <==> forall i :: 0 <= i < |cs| ==> !IsControl(cs[i])
  {
    if cs != [] {
      NoControlIsExact(cs[1..]);
      ControlInFront(cs[0], EncodeText(cs[1..]));
      assert forall i :: 0 < i < |cs| ==> cs[i] == cs[1..][i - 1];
      assert forall i :: 0 <= i < |cs| - 1 ==> cs[1..][i] == cs[i + 1];
    }
  }

  /** A name is usable as a nickname exactly if it takes 1 to 32 bytes and holds no control character. */
  lemma NicknamesAreExact(cs: seq<nat>)
    requires AllScalar(cs)
    ensures ValidNickname(EncodeText(cs)) <==>
              1 <= |EncodeText(cs)| <= 32 && forall i :: 0 <= i < |cs| ==> !IsControl(cs[i])
  {
    hide NoControl, EncodeText;
    NoControlIsExact(cs);
  }
}
