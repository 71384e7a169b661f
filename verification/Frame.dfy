/** The frame header of the shared-memory ring and its FNV-1a checksum. */
module Frame {
  import opened Common
  import opened Words

  type Bytes = seq<Byte>

  datatype Error = InvalidLayout | CorruptedHeader

  datatype Header = Header(len: U32, tag: U32, flags: Byte)

  const ENCODED_SIZE := 16
  const FNV_OFFSET: U32 := 0x811C_9DC5
  const FNV_PRIME := 0x0100_0193

  function Little(x: U32): (b: Bytes)
    ensures |b| == 4
  {
    [x % 256, x / 0x100 % 256, x / 0x1_0000 % 256, x / 0x100_0000]
  }

  function Word(bytes: Bytes, i: nat): U32
    requires i + 4 <= |bytes|
  {
    var a: nat, b: nat, c: nat, d: nat := bytes[i], bytes[i + 1], bytes[i + 2], bytes[i + 3];
    a + b * 0x100 + c * 0x1_0000 + d * 0x100_0000
  }

  /** One round of FNV-1a, with 32-bit wrap-around. */
  function Round(hash: U32, byte: Byte): U32 {
    Xor(hash, byte) * FNV_PRIME % TWO_32
  }

  function Fnv(bytes: Bytes): U32 {
    if bytes == [] then FNV_OFFSET else Round(Fnv(bytes[..|bytes| - 1]), bytes[|bytes| - 1])
  }

  /** The fields the checksum covers. */
  function Fields(h: Header): (b: Bytes)
    ensures |b| == 9
  {
    Little(h.len) + Little(h.tag) + [h.flags]
  }

  function Encoded(h: Header): (b: Bytes)
    ensures |b| == ENCODED_SIZE && b[..9] == Fields(h)
  {
    Fields(h) + Little(Fnv(Fields(h))) + [0, 0, 0]
  }

  function Decode(bytes: Bytes): Result<Header, Error> {
    if |bytes| < ENCODED_SIZE then Err(InvalidLayout)
    else if Word(bytes, 9) != Fnv(bytes[..9]) then Err(CorruptedHeader)
    else Ok(Header(Word(bytes, 0), Word(bytes, 4), bytes[8]))
  }

  /** The number that four octets spell, the least significant first. */
  function Octets(a: nat, b: nat, c: nat, d: nat): nat {
    a + 256 * (b + 256 * (c + 256 * d))
  }

  // ---------------------------------------------------------------------
  // The code
  // ---------------------------------------------------------------------

  method Checksum(bytes: Bytes) returns (hash: U32)
    ensures hash == Fnv(bytes)
  {
    hash := FNV_OFFSET;
    for i := 0 to |bytes|
      invariant hash == Fnv(bytes[..i])
    {
      var mixed := Xor(hash, bytes[i]);
      hash := mixed * FNV_PRIME % TWO_32;
      assert bytes[..i + 1][..i] == bytes[..i];
    }
    assert bytes[..|bytes|] == bytes;
  }

  method Encode(h: Header) returns (bytes: array<Byte>)
    ensures fresh(bytes) && bytes[..] == Encoded(h)
    ensures Octets(bytes[0], bytes[1], bytes[2], bytes[3]) == h.len
    ensures Octets(bytes[4], bytes[5], bytes[6], bytes[7]) == h.tag
    ensures bytes[8] == h.flags && bytes[13] == bytes[14] == bytes[15] == 0
    ensures Octets(bytes[9], bytes[10], bytes[11], bytes[12]) == Fnv(bytes[..9])
  {
    bytes := new Byte[16](i => 0);
    var len, tag := Little(h.len), Little(h.tag);
    forall i | 0 <= i < 4 { bytes[i] := len[i]; }
    forall i | 4 <= i < 8 { bytes[i] := tag[i - 4]; }
    bytes[8] := h.flags;
    assert bytes[..9] == Fields(h);
    var checksum := Checksum(bytes[..9]);
    var sum := Little(checksum);
    forall i | 9 <= i < 13 { bytes[i] := sum[i - 9]; }
    assert bytes[..] == Encoded(h);
    WordsBack(h, []);
    assert bytes[..] == Encoded(h) + [];
    assert bytes[..][..9] == bytes[..9];
  }

  /** Only the length makes a layout invalid. */
  lemma LayoutExactly(bytes: Bytes)
    ensures Decode(bytes) == Err(InvalidLayout) <==> |bytes| < 16
  {
  }

  /** A decoded header is what the octets say, least significant first. */
  lemma DecodedOctets(bytes: Bytes)
    requires Decode(bytes).Ok?
    ensures |bytes| >= 16
    ensures var h := Decode(bytes).value;
            && h.len == Octets(bytes[0], bytes[1], bytes[2], bytes[3])
            && h.tag == Octets(bytes[4], bytes[5], bytes[6], bytes[7])
            && h.flags == bytes[8]
  {
  }

  /**
   The hash mixes a byte in before it multiplies: a byte equal to the low byte of
   the hash so far leaves only the upper ones to multiply.
   */
  lemma FnvClearsFirst(s: Bytes)
    ensures var h := Fnv(s); Fnv(s + [h % 256]) == (h - h % 256) * 0x0100_0193 % TWO_32
  {
    var h := Fnv(s);
    assert (s + [h % 256])[..|s + [h % 256]| - 1] == s;
    Widths();
    XorLow(h, 8, h % 256);
  }

  /** The hash of nothing. */
  lemma FnvStart()
    ensures Fnv([]) == 0x811C_9DC5
  {
  }

  // ---------------------------------------------------------------------
  // Integrity
  // ---------------------------------------------------------------------

  lemma LittleRoundTrip(x: U32)
    ensures Word(Little(x), 0) == x
  {
    var a := x / 0x100;
    var b := a / 0x100;
    var c := b / 0x100;
    assert x / 0x1_0000 == b && x / 0x100_0000 == c;
    assert x == a * 0x100 + x % 0x100 && a == b * 0x100 + a % 0x100 && b == c * 0x100 + b % 0x100;
  }

  /** A byte of a word replaced by a different one changes the word. */
  lemma WordDetects(s: Bytes, i: nat, k: nat, v: Byte)
    requires i + 4 <= |s| && i <= k < i + 4 && v != s[k]
    ensures Word(s[k := v], i) != Word(s, i)
  {
    if k == i {
    } else if k == i + 1 {
    } else if k == i + 2 {
    } else {
    }
  }

  /** The prime is odd, so a round loses nothing of the mixed word. */
  lemma RoundInjective(a: U32, b: U32, x: Byte, y: Byte)
    requires Round(a, x) == Round(b, y)
    ensures Xor(a, x) == Xor(b, y)
  {
    Widths();
    XorFits(a, x, 32);
    XorFits(b, y, 32);
    MulInjective(Xor(a, x), Xor(b, y), FNV_PRIME, 0x359C_449B, 0x35_9C99, TWO_32);
  }

  /** Changing one byte changes the checksum, whatever follows. */
  lemma {:induction false} FnvDetects(s: Bytes, k: nat, v: Byte)
    requires k < |s| && s[k] != v
    ensures Fnv(s[k := v]) != Fnv(s)
  {
    var n, t := |s| - 1, s[k := v];
    var a, b := Fnv(s[..n]), Fnv(t[..n]);
    if Round(a, s[n]) == Round(b, t[n]) {
      RoundInjective(a, b, s[n], t[n]);
      if k == n {
        assert t[..n] == s[..n];
        XorSwap(a, s[n]);
        XorSwap(a, v);
        XorInjective(s[n], v, a);
      } else {
        XorInjective(a, b, s[n]);
        assert t[..n] == s[..n][k := v];
        FnvDetects(s[..n], k, v);
      }
    }
  }

  lemma WordsBack(h: Header, rest: Bytes)
    ensures var s := Encoded(h) + rest;
            && Word(s, 0) == h.len && Word(s, 4) == h.tag && s[8] == h.flags && Word(s, 9) == Fnv(Fields(h))
            && s[..9] == Fields(h)
  {
    LittleRoundTrip(h.len);
    LittleRoundTrip(h.tag);
    LittleRoundTrip(Fnv(Fields(h)));
  }

  /** Decoding inverts encoding, whatever follows the header in the ring. */
  lemma HeaderRoundTrip(h: Header, rest: Bytes)
    ensures Decode(Encoded(h) + rest) == Ok(h)
  {
    WordsBack(h, rest);
  }

  /** Any one of the first thirteen bytes replaced by a different value is noticed. */
  lemma CorruptionDetected(h: Header, k: nat, v: Byte)
    requires k < 13 && v != Encoded(h)[k]
    ensures Decode(Encoded(h)[k := v]) == Err(CorruptedHeader)
  {
    var good, bad := Encoded(h), Encoded(h)[k := v];
    WordsBack(h, []);
    assert good + [] == good;
    if k < 9 {
      assert bad[..9] == good[..9][k := v];
      FnvDetects(good[..9], k, v);
      assert Word(bad, 9) == Word(good, 9);
    } else {
      assert bad[..9] == good[..9];
      WordDetects(good, 9, k, v);
    }
  }

  /** The padding carries no meaning. */
  lemma PaddingIgnored(bytes: Bytes, k: nat, v: Byte)
    requires |bytes| >= ENCODED_SIZE && 13 <= k < |bytes|
    ensures Decode(bytes[k := v]) == Decode(bytes)
  {
    assert bytes[k := v][..9] == bytes[..9];
  }
}
