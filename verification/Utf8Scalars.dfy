/** Labels are valid UTF-8 exactly when they spell Unicode scalar values, as in section 3 of RFC 3629. */
module Utf8Scalars {
  import opened Common
  import opened DnsName

  type Scalar = n: nat | n < 0xD800 || 0xE000 <= n < 0x11_0000

  /** The octets of one scalar value. */
  function Spell(c: Scalar): (b: Bytes)
    ensures b != []
  {
    if c < 0x80 then [c]
    else if c < 0x800 then [0xC0 + c / 64, 0x80 + c % 64]
    else if c < 0x1_0000 then [0xE0 + c / 0x1000, 0x80 + c / 64 % 64, 0x80 + c % 64]
    else [0xF0 + c / 0x4_0000, 0x80 + c / 0x1000 % 64, 0x80 + c / 64 % 64, 0x80 + c % 64]
  }

  function SpellAll(cs: seq<Scalar>): Bytes {
    if cs == [] then [] else Spell(cs[0]) + SpellAll(cs[1..])
  }

  /** A spelling is read as one character, whatever follows. */
  lemma SpellRead(c: Scalar, rest: Bytes)
    ensures CharLen(Spell(c) + rest) == |Spell(c)|
  {
  }

  lemma TwoSpelled(a: Byte, b: Byte) returns (c: Scalar)
    requires 0xC2 <= a <= 0xDF && 0x80 <= b <= 0xBF
    ensures Spell(c) == [a, b]
  {
    var x: int, y: int := a - 0xC0, b - 0x80;
    c := x * 64 + y;
  }

  lemma ThreeSpelled(a: Byte, b: Byte, d: Byte) returns (c: Scalar)
    requires 0xE0 <= a <= 0xEF && 0x80 <= b <= 0xBF && 0x80 <= d <= 0xBF
    requires (a == 0xE0 ==> b >= 0xA0) && (a == 0xED ==> b <= 0x9F)
    ensures Spell(c) == [a, b, d]
  {
    var x: int, y: int, z: int := a - 0xE0, b - 0x80, d - 0x80;
    c := x * 0x1000 + y * 64 + z;
    assert c / 64 == x * 64 + y;
    assert c / 0x1000 == x;
  }

  lemma FourSpelled(a: Byte, b: Byte, d: Byte, e: Byte) returns (c: Scalar)
    requires 0xF0 <= a <= 0xF4 && 0x80 <= b <= 0xBF && 0x80 <= d <= 0xBF && 0x80 <= e <= 0xBF
    requires (a == 0xF0 ==> b >= 0x90) && (a == 0xF4 ==> b <= 0x8F)
    ensures Spell(c) == [a, b, d, e]
  {
    var x: int, y: int, z: int, w: int := a - 0xF0, b - 0x80, d - 0x80, e - 0x80;
    c := x * 0x4_0000 + y * 0x1000 + z * 64 + w;
    assert c / 64 == x * 0x1000 + y * 64 + z;
    assert c / 0x1000 == x * 64 + y;
    assert c / 0x4_0000 == x;
  }

  /** A character read is the spelling of a scalar value. */
  lemma ReadSpelled(s: Bytes) returns (c: Scalar)
    requires CharLen(s) > 0
    ensures Spell(c) == s[..CharLen(s)]
  {
    if CharLen(s) == 1 {
      c := s[0];
    } else if CharLen(s) == 2 {
      c := TwoSpelled(s[0], s[1]);
    } else if CharLen(s) == 3 {
      c := ThreeSpelled(s[0], s[1], s[2]);
    } else {
      c := FourSpelled(s[0], s[1], s[2], s[3]);
    }
  }

  lemma {:induction false} SpellingIsUtf8(cs: seq<Scalar>)
    ensures Utf8(SpellAll(cs))
  {
    if cs != [] {
      SpellRead(cs[0], SpellAll(cs[1..]));
      SpellingIsUtf8(cs[1..]);
      assert SpellAll(cs)[|Spell(cs[0])|..] == SpellAll(cs[1..]);
    }
  }

  lemma {:induction false} Utf8IsSpelled(s: Bytes) returns (cs: seq<Scalar>)
    requires Utf8(s)
    ensures SpellAll(cs) == s
  {
    if s == [] {
      cs := [];
    } else {
      var c := ReadSpelled(s);
      var rest := Utf8IsSpelled(s[CharLen(s)..]);
      cs := [c] + rest;
      assert s == s[..CharLen(s)] + s[CharLen(s)..];
    }
  }

  /** The check accepts exactly the spellings of sequences of scalar values. */
  lemma Utf8Exactly(s: Bytes)
    ensures Utf8(s) <==> exists cs :: SpellAll(cs) == s
  {
    if Utf8(s) {
      var cs := Utf8IsSpelled(s);
      assert SpellAll(cs) == s;
    }
    if cs :| SpellAll(cs) == s {
      SpellingIsUtf8(cs);
    }
  }
}
