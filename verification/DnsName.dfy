/**
 DNS names on the wire (sections 3.1 and 4.1.4 of RFC 1035): length-prefixed
 labels, compression pointers with a hop guard, and the text form with dots.
 */
module DnsName {
  import opened Common
  import opened Text

  type Bytes = seq<Byte>

  datatype WireError = Short | NameTooLong | Malformed | CompressionLoop

  const DOT: Byte := 0x2E
  const MAX_JUMPS := 32

  // ---------------------------------------------------------------------
  // UTF-8, the form of every text the codec reads or returns
  // ---------------------------------------------------------------------

  predicate Tail(s: Bytes, i: nat) {
    i < |s| && 0x80 <= s[i] <= 0xBF
  }

  /** The length of the first encoded character, or zero if there is none. */
  function CharLen(s: Bytes): (n: nat)
    ensures n <= |s|
    ensures forall i | 1 <= i < n :: Tail(s, i)
  {
    if s == [] then 0
    else if s[0] <= 0x7F then 1
    else if 0xC2 <= s[0] <= 0xDF && Tail(s, 1) then 2
    else if 0xE0 <= s[0] <= 0xEF && Tail(s, 1) && Tail(s, 2)
            && (s[0] == 0xE0 ==> s[1] >= 0xA0) && (s[0] == 0xED ==> s[1] <= 0x9F) then 3
    else if 0xF0 <= s[0] <= 0xF4 && Tail(s, 1) && Tail(s, 2) && Tail(s, 3)
            && (s[0] == 0xF0 ==> s[1] >= 0x90) && (s[0] == 0xF4 ==> s[1] <= 0x8F) then 4
    else 0
  }

  predicate Utf8(s: Bytes) {
    s == [] || (CharLen(s) > 0 && Utf8(s[CharLen(s)..]))
  }

  /** Cutting at a dot never cuts a character. */
  lemma {:induction false} Utf8Cut(a: Bytes, b: Bytes)
    requires Utf8(a + [DOT] + b)
    ensures Utf8(a) && Utf8(b)
  {
    var s := a + [DOT] + b;
    if a == [] {
      assert s[1..] == b;
    } else {
      var n := CharLen(s);
      assert s[|a|] == DOT;
      assert !Tail(s, |a|);
      assert CharLen(a) == n by {
        assert forall i | 0 <= i < n :: a[i] == s[i];
      }
      assert s[n..] == a[n..] + [DOT] + b;
      Utf8Cut(a[n..], b);
    }
  }

  // ---------------------------------------------------------------------
  // Text form
  // ---------------------------------------------------------------------

  function TrimDots(s: Bytes): Bytes {
    if s != [] && s[|s| - 1] == DOT then TrimDots(s[..|s| - 1]) else s
  }

  /** All trailing dots are trimmed, and nothing else. */
  lemma {:induction false} DotsTrimmed(core: Bytes, dots: Bytes)
    requires (core != [] ==> core[|core| - 1] != DOT) && forall i | 0 <= i < |dots| :: dots[i] == 0x2E
    ensures TrimDots(core + dots) == core
    decreases |dots|
  {
    if dots == [] {
      assert core + dots == core;
    } else {
      assert (core + dots)[..|core + dots| - 1] == core + dots[..|dots| - 1];
      DotsTrimmed(core, dots[..|dots| - 1]);
    }
  }

  lemma {:induction false} TrimUtf8(s: Bytes)
    requires Utf8(s)
    ensures Utf8(TrimDots(s))
  {
    if s != [] && s[|s| - 1] == DOT {
      assert s == s[..|s| - 1] + [DOT] + [];
      Utf8Cut(s[..|s| - 1], []);
      TrimUtf8(s[..|s| - 1]);
    }
  }

  // ---------------------------------------------------------------------
  // Wire form
  // ---------------------------------------------------------------------

  predicate LabelOk(part: Bytes) {
    0 < |part| <= 63
  }

  /** The length octet: a truncating cast. */
  function LenByte(l: Bytes): Byte {
    |l| % 256
  }

  /** The labels as length-prefixed octets, without the terminator. */
  function LabelsWire(labels: seq<Bytes>): Bytes {
    if labels == [] then [] else [LenByte(labels[0])] + labels[0] + LabelsWire(labels[1..])
  }

  /** What the first bad label, if any, makes of the name. */
  function FirstFault(labels: seq<Bytes>): Option<WireError> {
    if labels == [] then None
    else if labels[0] == [] then Some(Malformed)
    else if |labels[0]| > 63 then Some(NameTooLong)
    else FirstFault(labels[1..])
  }

  /** Labels the decoder gives back as they are. */
  predicate AllGood(labels: seq<Bytes>) {
    labels == [] || (LabelOk(labels[0]) && Utf8(labels[0]) && AllGood(labels[1..]))
  }

  lemma {:induction false} SplitGood(s: Bytes)
    requires Utf8(s) && FirstFault(Split(s, DOT)).None?
    ensures AllGood(Split(s, DOT))
    decreases |s|
  {
    var n := CutAt(s, DOT);
    if n == |s| {
      assert [s][1..] == [];
    } else {
      assert s == s[..n] + [DOT] + s[n + 1..];
      Utf8Cut(s[..n], s[n + 1..]);
      assert Split(s, DOT)[1..] == Split(s[n + 1..], DOT);
      SplitGood(s[n + 1..]);
    }
  }

  function LabelsOf(name: Bytes): seq<Bytes> {
    if TrimDots(name) == [] then [] else Split(TrimDots(name), DOT)
  }

  /** Why the encoder refuses the name. */
  function Refusal(name: Bytes): Option<WireError> {
    var labels := LabelsOf(name);
    if FirstFault(labels).Some? then FirstFault(labels)
    else if |LabelsWire(labels)| >= 255 then Some(NameTooLong)
    else None
  }

  function NameWire(name: Bytes): (w: Bytes)
    requires Refusal(name).None?
    ensures |w| <= 255
  {
    LabelsWire(LabelsOf(name)) + [0]
  }

  lemma {:induction false} LabelsWireSnoc(labels: seq<Bytes>, l: Bytes)
    ensures LabelsWire(labels + [l]) == LabelsWire(labels) + [LenByte(l)] + l
  {
    if labels == [] {
      assert labels + [l] == [l] && [l][1..] == [];
    } else {
      LabelsWireSnoc(labels[1..], l);
      assert (labels + [l])[1..] == labels[1..] + [l];
    }
  }

  /** `encode_name`: appends the encoding, or refuses. */
  method EncodeName(name: Bytes, before: Bytes) returns (r: Result<Bytes, WireError>)
    ensures r == if Refusal(name).None? then Ok(before + NameWire(name)) else Err(Refusal(name).value)
  {
    var trimmed := TrimDots(name);
    if trimmed == [] {
      assert NameWire(name) == [0];
      return Ok(before + [0]);
    }
    var labels, out, written := Split(trimmed, DOT), before, 0;
    for i := 0 to |labels|
      invariant FirstFault(labels) == FirstFault(labels[i..])
      invariant out == before + LabelsWire(labels[..i]) && written == |LabelsWire(labels[..i])|
    {
      var next := labels[i];
      assert labels[i..][0] == next && labels[i..][1..] == labels[i + 1..];
      if next == [] {
        return Err(Malformed);
      }
      if |next| > 63 {
        return Err(NameTooLong);
      }
      LabelsWireSnoc(labels[..i], next);
      assert labels[..i + 1] == labels[..i] + [next];
      out := out + [LenByte(next)] + next;
      written := written + 1 + |next|;
    }
    assert labels[..|labels|] == labels;
    if written >= 255 {
      return Err(NameTooLong);
    }
    assert out + [0] == before + (LabelsWire(labels) + [0]);
    r := Ok(out + [0]);
  }

  // ---------------------------------------------------------------------
  // Decoding
  // ---------------------------------------------------------------------

  type Decoded = Result<(seq<Bytes>, nat), WireError>

  /**
   The labels found from `pos`, and the position just past the encoding there.
   Every hop uses up one of the jumps, and every part moves forward.
   */
  function ParseFrom(bytes: Bytes, pos: nat, jumps: nat): (d: Decoded)
    requires jumps <= MAX_JUMPS
    ensures d.Ok? ==> pos < d.value.1 <= |bytes|
    decreases MAX_JUMPS + 1 - jumps, |bytes| - pos
  {
    if pos >= |bytes| then Err(Short)
    else
      var length := bytes[pos];
      if length == 0 then Ok(([], pos + 1))
      else if length >= 0xC0 then
        if pos + 1 >= |bytes| then Err(Short)
        else if jumps + 1 > MAX_JUMPS then Err(CompressionLoop)
        else
          var rest := ParseFrom(bytes, Pointer(length, bytes[pos + 1]), jumps + 1);
          if rest.Err? then rest else Ok((rest.value.0, pos + 2))
      else if length >= 0x40 then Err(Malformed)
      else if pos + 1 + length > |bytes| then Err(Short)
      else if !Utf8(bytes[pos + 1..pos + 1 + length]) then Err(Malformed)
      else
        var rest := ParseFrom(bytes, pos + 1 + length, jumps);
        if rest.Err? then rest else Ok(([bytes[pos + 1..pos + 1 + length]] + rest.value.0, rest.value.1))
  }

  function Pointer(high: Byte, low: Byte): nat {
    high % 64 * 256 + low
  }

  /** What the loop still has to add to what it has found. */
  function Resume(labels: seq<Bytes>, jumped: bool, end: nat, rest: Decoded): Decoded {
    if rest.Err? then rest else Ok((labels + rest.value.0, if jumped then end else rest.value.1))
  }

  /** `parse_name`. */
  method ParseName(bytes: Bytes, start: nat) returns (r: Result<(Bytes, nat), WireError>)
    ensures var d := ParseFrom(bytes, start, 0);
            r == if d.Err? then Err(d.error) else Ok((Join(d.value.0, DOT), d.value.1))
  {
    var d := ParseLabels(bytes, start);
    r := if d.Err? then Err(d.error) else Ok((Join(d.value.0, DOT), d.value.1));
  }

  /** The loop of `parse_name`. It ends on every input: each round jumps or moves forward. */
  method ParseLabels(bytes: Bytes, start: nat) returns (d: Decoded)
    ensures d == ParseFrom(bytes, start, 0)
  {
    var labels: seq<Bytes>, pos: nat, end: nat, jumped, jumps := [], start, start, false, 0;
    PrependNone(ParseFrom(bytes, start, 0));
    while true
      invariant jumps <= MAX_JUMPS
      invariant ParseFrom(bytes, start, 0) == Resume(labels, jumped, end, ParseFrom(bytes, pos, jumps))
      decreases MAX_JUMPS + 1 - jumps, |bytes| - pos
    {
      if pos >= |bytes| {
        return Err(Short);
      }
      var length := bytes[pos];
      if length == 0 {
        if !jumped {
          end := pos + 1;
        }
        assert labels + [] == labels;
        return Ok((labels, end));
      } else if length >= 0xC0 {
        if pos + 1 >= |bytes| {
          return Err(Short);
        }
        if !jumped {
          end := pos + 2;
        }
        pos := Pointer(length, bytes[pos + 1]);
        jumped, jumps := true, jumps + 1;
        if jumps > MAX_JUMPS {
          return Err(CompressionLoop);
        }
      } else if length >= 0x40 {
        return Err(Malformed);
      } else {
        if pos + 1 + length > |bytes| {
          return Err(Short);
        }
        var part := bytes[pos + 1..pos + 1 + length];
        if !Utf8(part) {
          return Err(Malformed);
        }
        LabelAdds(labels, part, ParseFrom(bytes, pos + 1 + length, jumps));
        labels := labels + [part];
        pos := pos + 1 + length;
      }
    }
  }

  lemma PrependNone(rest: Decoded)
    ensures Resume([], false, 0, rest) == rest
  {
    assert rest.Ok? ==> [] + rest.value.0 == rest.value.0;
  }

  lemma LabelAdds(labels: seq<Bytes>, part: Bytes, rest: Decoded)
    ensures rest.Ok? ==> labels + ([part] + rest.value.0) == labels + [part] + rest.value.0
  {
  }

  // ---------------------------------------------------------------------
  // Round trips
  // ---------------------------------------------------------------------

  /** The octets `w` are at `pos` of the message. */
  predicate Holds(bytes: Bytes, pos: nat, w: Bytes) {
    pos + |w| <= |bytes| && forall i {:trigger w[i]} | 0 <= i < |w| :: bytes[pos + i] == w[i]
  }

  /** From `pos` on, the reader `f` takes one label after the other. */
  predicate Takes(f: nat -> Decoded, pos: nat, labels: seq<Bytes>)
    decreases |labels|
  {
    labels == []
    || (f(pos) == Prepend([labels[0]], f(pos + 1 + |labels[0]|)) && Takes(f, pos + 1 + |labels[0]|, labels[1..]))
  }

  lemma {:induction false} TakesAll(f: nat -> Decoded, pos: nat, labels: seq<Bytes>)
    requires Takes(f, pos, labels)
    ensures f(pos) == Prepend(labels, f(pos + |LabelsWire(labels)|))
    decreases |labels|
  {
    if labels == [] {
      assert f(pos).Ok? ==> [] + f(pos).value.0 == f(pos).value.0;
    } else {
      var next := pos + 1 + |labels[0]|;
      TakesAll(f, next, labels[1..]);
      PrependTwice(labels[0], labels[1..], f(next + |LabelsWire(labels[1..])|));
      assert labels == [labels[0]] + labels[1..];
    }
  }

  function Reader(bytes: Bytes, jumps: nat): nat -> Decoded
    requires jumps <= MAX_JUMPS
  {
    (pos: nat) => ParseFrom(bytes, pos, jumps)
  }

  lemma ReaderReads(bytes: Bytes, pos: nat, jumps: nat)
    requires jumps <= MAX_JUMPS
    ensures Reader(bytes, jumps)(pos) == ParseFrom(bytes, pos, jumps)
  {
  }

  lemma {:induction false} LabelsTaken(bytes: Bytes, pos: nat, labels: seq<Bytes>, jumps: nat)
    requires AllGood(labels) && jumps <= MAX_JUMPS && Holds(bytes, pos, LabelsWire(labels))
    ensures Takes(Reader(bytes, jumps), pos, labels)
    decreases |labels|
  {
    if labels != [] {
      FirstTaken(bytes, pos, labels, jumps);
      LabelsTaken(bytes, pos + 1 + |labels[0]|, labels[1..], jumps);
    }
  }

  lemma FirstTaken(bytes: Bytes, pos: nat, labels: seq<Bytes>, jumps: nat)
    requires labels != [] && AllGood(labels) && jumps <= MAX_JUMPS && Holds(bytes, pos, LabelsWire(labels))
    ensures var f, next := Reader(bytes, jumps), pos + 1 + |labels[0]|;
            f(pos) == Prepend([labels[0]], f(next)) && Holds(bytes, next, LabelsWire(labels[1..]))
  {
    LabelsReadMore(bytes, pos, labels, jumps);
    ReaderReads(bytes, pos, jumps);
    ReaderReads(bytes, pos + 1 + |labels[0]|, jumps);
  }

  lemma LabelsVia(bytes: Bytes, pos: nat, labels: seq<Bytes>, jumps: nat)
    requires AllGood(labels) && jumps <= MAX_JUMPS && Holds(bytes, pos, LabelsWire(labels))
    ensures var f := Reader(bytes, jumps); f(pos) == Prepend(labels, f(pos + |LabelsWire(labels)|))
  {
    LabelsTaken(bytes, pos, labels, jumps);
    TakesAll(Reader(bytes, jumps), pos, labels);
  }

  /** Labels written at any offset are read back, and what follows them decides the rest. */
  lemma LabelsRead(bytes: Bytes, pos: nat, labels: seq<Bytes>, jumps: nat)
    requires AllGood(labels) && jumps <= MAX_JUMPS && Holds(bytes, pos, LabelsWire(labels))
    ensures ParseFrom(bytes, pos, jumps) == Prepend(labels, ParseFrom(bytes, pos + |LabelsWire(labels)|, jumps))
  {
    LabelsVia(bytes, pos, labels, jumps);
    ReaderReads(bytes, pos, jumps);
    ReaderReads(bytes, pos + |LabelsWire(labels)|, jumps);
  }

  lemma LabelsReadMore(bytes: Bytes, pos: nat, labels: seq<Bytes>, jumps: nat)
    requires labels != [] && AllGood(labels) && jumps <= MAX_JUMPS && Holds(bytes, pos, LabelsWire(labels))
    ensures var l, w := labels[0], LabelsWire(labels[1..]);
            && LabelsWire(labels) == [LenByte(l)] + l + w && Holds(bytes, pos + 1 + |l|, w)
            && ParseFrom(bytes, pos, jumps) == Prepend([l], ParseFrom(bytes, pos + 1 + |l|, jumps))
  {
    var l, w := labels[0], LabelsWire(labels[1..]);
    HoldsCut(bytes, pos, [LenByte(l)] + l, w);
    OneRead(bytes, pos, l, jumps);
  }

  lemma HoldsCut(bytes: Bytes, pos: nat, v: Bytes, w: Bytes)
    requires Holds(bytes, pos, v + w)
    ensures Holds(bytes, pos, v) && Holds(bytes, pos + |v|, w)
  {
    forall i | 0 <= i < |v| ensures bytes[pos + i] == v[i] {
      assert (v + w)[i] == v[i];
    }
    forall i | 0 <= i < |w| ensures bytes[pos + |v| + i] == w[i] {
      assert (v + w)[|v| + i] == w[i];
    }
  }

  function Prepend(labels: seq<Bytes>, rest: Decoded): Decoded {
    if rest.Err? then rest else Ok((labels + rest.value.0, rest.value.1))
  }

  lemma PrependTwice(l: Bytes, labels: seq<Bytes>, rest: Decoded)
    ensures Prepend([l], Prepend(labels, rest)) == Prepend([l] + labels, rest)
  {
    assert rest.Ok? ==> [l] + (labels + rest.value.0) == [l] + labels + rest.value.0;
  }

  lemma LabelAt(bytes: Bytes, pos: nat, l: Bytes)
    requires LabelOk(l) && Holds(bytes, pos, [LenByte(l)] + l)
    ensures pos + 1 + |l| <= |bytes| && bytes[pos] == LenByte(l) && bytes[pos + 1..pos + 1 + |l|] == l
  {
    var w := [LenByte(l)] + l;
    assert bytes[pos] == w[0];
    forall i | 0 <= i < |l| ensures bytes[pos + 1 + i] == l[i] {
      assert w[1 + i] == l[i];
    }
  }

  lemma OneRead(bytes: Bytes, pos: nat, l: Bytes, jumps: nat)
    requires LabelOk(l) && Utf8(l) && jumps <= MAX_JUMPS && Holds(bytes, pos, [LenByte(l)] + l)
    ensures ParseFrom(bytes, pos, jumps) == Prepend([l], ParseFrom(bytes, pos + 1 + |l|, jumps))
  {
    LabelAt(bytes, pos, l);
    LabelStep(bytes, pos, jumps);
  }

  /** A length octet below 64 is followed by its label and the rest of the name. */
  lemma LabelStep(bytes: Bytes, pos: nat, jumps: nat)
    requires jumps <= MAX_JUMPS && pos < |bytes| && 0 < bytes[pos] < 0x40 && pos + 1 + bytes[pos] <= |bytes|
    requires Utf8(bytes[pos + 1..pos + 1 + bytes[pos]])
    ensures ParseFrom(bytes, pos, jumps) ==
            Prepend([bytes[pos + 1..pos + 1 + bytes[pos]]], ParseFrom(bytes, pos + 1 + bytes[pos], jumps))
  {
  }

  lemma LabelsGood(name: Bytes)
    requires Utf8(name) && Refusal(name).None?
    ensures AllGood(LabelsOf(name)) && Join(LabelsOf(name), DOT) == TrimDots(name)
  {
    if TrimDots(name) != [] {
      TrimUtf8(name);
      SplitGood(TrimDots(name));
      JoinSplit(TrimDots(name), DOT);
    }
  }

  lemma RootRead(bytes: Bytes, pos: nat, jumps: nat)
    requires pos < |bytes| && bytes[pos] == 0 && jumps <= MAX_JUMPS
    ensures ParseFrom(bytes, pos, jumps) == Ok(([], pos + 1))
  {
  }

  /** Labels and the closing zero are read as those labels. */
  lemma NameRead(bytes: Bytes, pos: nat, labels: seq<Bytes>, jumps: nat)
    requires AllGood(labels) && Holds(bytes, pos, LabelsWire(labels) + [0]) && jumps <= MAX_JUMPS
    ensures ParseFrom(bytes, pos, jumps) == Ok((labels, pos + |LabelsWire(labels)| + 1))
  {
    HoldsCut(bytes, pos, LabelsWire(labels), [0]);
    var end := pos + |LabelsWire(labels)|;
    assert bytes[end] == [0][0];
    RootRead(bytes, end, jumps);
    LabelsRead(bytes, pos, labels, jumps);
    assert labels + [] == labels;
  }

  /**
   Every accepted name, at any offset of any message, is read back without its
   trailing dots, and the reader stops just past the encoding.
   */
  lemma NameRoundTrip(bytes: Bytes, pos: nat, name: Bytes, jumps: nat)
    requires Utf8(name) && Refusal(name).None? && Holds(bytes, pos, NameWire(name)) && jumps <= MAX_JUMPS
    ensures var d := ParseFrom(bytes, pos, jumps);
            && d.Ok? && Join(d.value.0, DOT) == TrimDots(name)
            && d.value.1 == pos + |NameWire(name)| && |NameWire(name)| <= 255
  {
    LabelsGood(name);
    NameRead(bytes, pos, LabelsOf(name), jumps);
  }

  /**
   Compression: labels followed by a pointer stand for those labels followed by
   the name at the pointer, which is read past the two octets of the pointer.
   */
  lemma CompressedName(bytes: Bytes, pos: nat, labels: seq<Bytes>, high: Byte, low: Byte, jumps: nat)
    requires AllGood(labels) && jumps < MAX_JUMPS && high >= 0xC0
    requires Holds(bytes, pos, LabelsWire(labels) + [high, low])
    ensures var tail := ParseFrom(bytes, Pointer(high, low), jumps + 1);
            ParseFrom(bytes, pos, jumps) ==
            if tail.Err? then tail else Ok((labels + tail.value.0, pos + |LabelsWire(labels)| + 2))
  {
    HoldsCut(bytes, pos, LabelsWire(labels), [high, low]);
    LabelsRead(bytes, pos, labels, jumps);
    var at := pos + |LabelsWire(labels)|;
    assert bytes[at] == [high, low][0] && bytes[at + 1] == [high, low][1];
  }

  // ---------------------------------------------------------------------
  // The other direction
  // ---------------------------------------------------------------------

  lemma {:induction false} ParsedGood(bytes: Bytes, pos: nat, jumps: nat)
    requires jumps <= MAX_JUMPS && ParseFrom(bytes, pos, jumps).Ok?
    ensures AllGood(ParseFrom(bytes, pos, jumps).value.0)
    decreases MAX_JUMPS + 1 - jumps, |bytes| - pos
  {
    var length := bytes[pos];
    if length >= 0xC0 {
      ParsedGood(bytes, Pointer(length, bytes[pos + 1]), jumps + 1);
    } else if length > 0 {
      ParsedGood(bytes, pos + 1 + length, jumps);
      var labels := ParseFrom(bytes, pos, jumps).value.0;
      assert labels[1..] == ParseFrom(bytes, pos + 1 + length, jumps).value.0;
    }
  }

  lemma {:induction false} GoodIsFaultless(labels: seq<Bytes>)
    requires AllGood(labels)
    ensures FirstFault(labels).None?
  {
    if labels != [] {
      GoodIsFaultless(labels[1..]);
    }
  }

  /** Labels of admissible length are told apart by their octets. */
  lemma {:induction false} WireInjective(a: seq<Bytes>, b: seq<Bytes>)
    requires FirstFault(a).None? && FirstFault(b).None? && LabelsWire(a) == LabelsWire(b)
    ensures a == b
  {
    if a != [] && b != [] {
      var w := LabelsWire(a);
      var n := |a[0]|;
      assert w[0] == LenByte(a[0]) == LenByte(b[0]);
      assert w[1..n + 1] == a[0] && w[1..n + 1] == b[0];
      assert w[n + 1..] == LabelsWire(a[1..]) && w[n + 1..] == LabelsWire(b[1..]);
      WireInjective(a[1..], b[1..]);
      assert a == [a[0]] + a[1..] && b == [b[0]] + b[1..];
    }
  }

  predicate NoDots(labels: seq<Bytes>) {
    forall l | l in labels :: DOT !in l
  }

  lemma {:induction false} JoinEnd(labels: seq<Bytes>)
    requires labels != [] && FirstFault(labels).None?
    ensures var s, l := Join(labels, DOT), labels[|labels| - 1]; s != [] && l != [] && s[|s| - 1] == l[|l| - 1]
  {
    if |labels| > 1 {
      JoinEnd(labels[1..]);
    }
  }

  lemma UndottedLabels(labels: seq<Bytes>)
    requires FirstFault(labels).None? && NoDots(labels)
    ensures LabelsOf(Join(labels, DOT)) == labels
  {
    if labels != [] {
      SplitJoin(labels, DOT);
      JoinEnd(labels);
      assert labels[|labels| - 1] in labels;
    }
  }

  /** The name is encoded as exactly these labels. */
  predicate EncodesAs(name: Bytes, labels: seq<Bytes>) {
    Refusal(name).None? && NameWire(name) == LabelsWire(labels) + [0]
  }

  lemma EncodedLabels(name: Bytes, labels: seq<Bytes>)
    requires EncodesAs(name, labels) && FirstFault(labels).None?
    ensures LabelsOf(name) == labels && NoDots(labels)
  {
    var w := LabelsWire(labels);
    assert NameWire(name)[..|NameWire(name)| - 1] == LabelsWire(LabelsOf(name)) && (w + [0])[..|w|] == w;
    WireInjective(LabelsOf(name), labels);
    forall l | l in labels ensures DOT !in l {
      SplitFree(TrimDots(name), DOT, l);
    }
  }

  /**
   A name read from any message is encoded again as the labels it was read from
   if and only if no label holds a dot and the labels are short enough together.
   */
  lemma ReencodesExactly(bytes: Bytes, pos: nat)
    requires ParseFrom(bytes, pos, 0).Ok?
    ensures var labels := ParseFrom(bytes, pos, 0).value.0;
            EncodesAs(Join(labels, DOT), labels) <==> NoDots(labels) && |LabelsWire(labels)| < 255
  {
    ParsedGood(bytes, pos, 0);
    EncodesExactly(ParseFrom(bytes, pos, 0).value.0);
  }

  lemma EncodesExactly(labels: seq<Bytes>)
    requires AllGood(labels)
    ensures EncodesAs(Join(labels, DOT), labels) <==> NoDots(labels) && |LabelsWire(labels)| < 255
  {
    GoodIsFaultless(labels);
    if NoDots(labels) {
      UndottedLabels(labels);
    }
    if EncodesAs(Join(labels, DOT), labels) {
      EncodedLabels(Join(labels, DOT), labels);
    }
  }

  /** A label that holds a dot is read from its own encoding, and the name does not encode to it. */
  lemma DottedLabel(l: Bytes)
    requires LabelOk(l) && Utf8(l) && DOT in l
    ensures var message := LabelsWire([l]) + [0];
            ParseFrom(message, 0, 0) == Ok(([l], |message|)) && !EncodesAs(Join([l], DOT), [l])
  {
    var message := LabelsWire([l]) + [0];
    assert [l][1..] == [];
    NameRead(message, 0, [l], 0);
    ReencodesExactly(message, 0);
    assert l in [l];
  }

  // ---------------------------------------------------------------------
  // Refusals
  // ---------------------------------------------------------------------

  /** The first label that does not fit decides the refusal of a name. */
  lemma {:induction false} FaultExactly(labels: seq<Bytes>, k: nat)
    requires k < |labels| && !LabelOk(labels[k]) && forall i | 0 <= i < k :: LabelOk(labels[i])
    ensures FirstFault(labels) == Some(if labels[k] == [] then Malformed else NameTooLong)
  {
    if k > 0 {
      assert LabelOk(labels[0]);
      FaultExactly(labels[1..], k - 1);
    }
  }

  /** A length octet that is neither a length nor a pointer is malformed. */
  lemma ReservedLength(bytes: Bytes, pos: nat, jumps: nat)
    requires jumps <= MAX_JUMPS && pos < |bytes| && 0x40 <= bytes[pos] < 0xC0
    ensures ParseFrom(bytes, pos, jumps) == Err(Malformed)
  {
  }

  /** A pointer to itself is a loop, wherever it is. */
  lemma {:induction false} SelfPointer(bytes: Bytes, pos: nat, jumps: nat)
    requires jumps <= MAX_JUMPS && pos < 0x4000 && pos + 1 < |bytes|
    requires bytes[pos] == 0xC0 + pos / 256 && bytes[pos + 1] == pos % 256
    ensures ParseFrom(bytes, pos, jumps) == Err(CompressionLoop)
    decreases MAX_JUMPS - jumps
  {
    assert Pointer(bytes[pos], bytes[pos + 1]) == pos;
    if jumps < MAX_JUMPS {
      SelfPointer(bytes, pos, jumps + 1);
    }
  }

  /** A name in a message that was cut is the same name, or is found to be short. */
  lemma {:induction false} CutName(bytes: Bytes, k: nat, pos: nat, jumps: nat)
    requires k <= |bytes| && jumps <= MAX_JUMPS
    ensures var cut := ParseFrom(bytes[..k], pos, jumps);
            cut == Err(Short) || cut == ParseFrom(bytes, pos, jumps)
    decreases MAX_JUMPS + 1 - jumps, |bytes| - pos
  {
    if pos < k {
      var length := bytes[pos];
      if length >= 0xC0 && pos + 1 < k && jumps < MAX_JUMPS {
        CutName(bytes, k, Pointer(length, bytes[pos + 1]), jumps + 1);
      } else if 0 < length < 0x40 && pos + 1 + length <= k {
        assert bytes[..k][pos + 1..pos + 1 + length] == bytes[pos + 1..pos + 1 + length];
        CutName(bytes, k, pos + 1 + length, jumps);
      }
    }
  }
}
