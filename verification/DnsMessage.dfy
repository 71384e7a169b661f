/** DNS messages on the wire (sections 4.1.1 to 4.1.3 of RFC 1035). */
module DnsMessage {
  import opened Common
  import opened DnsName

  const HEADER_LEN := 12
  const FLAG_RD := 0x0100
  const CLASS_IN := 1
  const TYPE_A := 1
  const TYPE_CNAME := 5
  const TYPE_AAAA := 28

  type U16 = n: nat | n < 0x1_0000

  datatype RecordType = A | Cname | Aaaa {
    function AsWire(): U16 {
      match this
      case A => TYPE_A
      case Cname => TYPE_CNAME
      case Aaaa => TYPE_AAAA
    }
  }

  datatype Query = Query(name: Bytes, recordType: RecordType)

  datatype Outcome = NoError | Truncated | ServFail | NxDomain | Refused | Upstream

  datatype Address = V4(octets: Bytes) | V6(octets: Bytes)

  datatype Parsed = Parsed(txid: U16, outcome: Outcome, addresses: seq<Address>)

  function BigEndian(n: U16): Bytes {
    [n / 256, n % 256]
  }

  function ReadU16(bytes: Bytes, pos: nat): U16
    requires pos + 2 <= |bytes|
  {
    var hi: nat, lo: nat := bytes[pos], bytes[pos + 1];
    hi * 256 + lo
  }

  function OutcomeOf(flags: U16): Outcome {
    if flags / 0x0200 % 2 != 0 then Truncated
    else
      match flags % 16
      case 0 => NoError
      case 2 => ServFail
      case 3 => NxDomain
      case 5 => Refused
      case _ => Upstream
  }

  // ---------------------------------------------------------------------
  // Encoding
  // ---------------------------------------------------------------------

  function Header(txid: U16, flags: U16, qdcount: U16, ancount: U16): (w: Bytes)
    ensures |w| == HEADER_LEN
  {
    BigEndian(txid) + BigEndian(flags) + BigEndian(qdcount) + BigEndian(ancount) + [0, 0, 0, 0]
  }

  function QuestionWire(q: Query): Bytes
    requires Refusal(q.name).None?
  {
    NameWire(q.name) + BigEndian(q.recordType.AsWire()) + BigEndian(CLASS_IN)
  }

  function QueryWire(q: Query, txid: U16): Bytes
    requires Refusal(q.name).None?
  {
    Header(txid, FLAG_RD, 1, 0) + QuestionWire(q)
  }

  /** `encode_query`. */
  method EncodeQuery(q: Query, txid: U16) returns (r: Result<Bytes, WireError>)
    ensures r == if Refusal(q.name).None? then Ok(QueryWire(q, txid)) else Err(Refusal(q.name).value)
  {
    var out: Bytes := BigEndian(txid);
    out := out + BigEndian(FLAG_RD);
    out := out + BigEndian(1);
    out := out + [0, 0, 0, 0, 0, 0];
    assert out == Header(txid, FLAG_RD, 1, 0);
    r := EncodeName(q.name, out);
    if r.Ok? {
      var message := r.value + BigEndian(q.recordType.AsWire()) + BigEndian(CLASS_IN);
      assert message == QueryWire(q, txid);
      r := Ok(message);
    }
  }

  // ---------------------------------------------------------------------
  // Parsing
  // ---------------------------------------------------------------------

  /** The position past `n` questions. */
  function Questions(bytes: Bytes, pos: nat, n: nat): Result<nat, WireError>
    decreases n
  {
    if n == 0 then Ok(pos)
    else
      var d := ParseFrom(bytes, pos, 0);
      if d.Err? then Err(d.error)
      else if d.value.1 + 4 > |bytes| then Err(Short)
      else Questions(bytes, d.value.1 + 4, n - 1)
  }

  function AddressOf(rtype: U16, rdata: Bytes): seq<Address> {
    if rtype == TYPE_A && |rdata| == 4 then [V4(rdata)]
    else if rtype == TYPE_AAAA && |rdata| == 16 then [V6(rdata)]
    else []
  }

  /** One answer: the address it carries, if any, and the position past it. */
  function Answer(bytes: Bytes, pos: nat): Result<(seq<Address>, nat), WireError> {
    var d := ParseFrom(bytes, pos, 0);
    if d.Err? then Err(d.error) else RecordAt(bytes, d.value.1)
  }

  /** What follows the name of an answer: type, class, time to live, length and data. */
  function RecordAt(bytes: Bytes, at: nat): Result<(seq<Address>, nat), WireError> {
    if at + 10 > |bytes| then Err(Short)
    else
      var rdlength := ReadU16(bytes, at + 8);
      if at + 10 + rdlength > |bytes| then Err(Short)
      else Ok((AddressOf(ReadU16(bytes, at), bytes[at + 10..at + 10 + rdlength]), at + 10 + rdlength))
  }

  type AnswerReader = nat -> Result<(seq<Address>, nat), WireError>

  /** What `n` answers carry in order, each read by `g`, and the position past them. */
  function Gather(g: AnswerReader, pos: nat, n: nat): Result<(seq<Address>, nat), WireError>
    decreases n
  {
    if n == 0 then Ok(([], pos))
    else
      var first := g(pos);
      if first.Err? then first else Adding(first.value.0, Gather(g, first.value.1, n - 1))
  }

  function Reading(bytes: Bytes): AnswerReader {
    (pos: nat) => Answer(bytes, pos)
  }

  /** The addresses of `n` answers in order, and the position past them. */
  function Answers(bytes: Bytes, pos: nat, n: nat): Result<(seq<Address>, nat), WireError> {
    Gather(Reading(bytes), pos, n)
  }

  function Adding(found: seq<Address>, rest: Result<(seq<Address>, nat), WireError>):
    Result<(seq<Address>, nat), WireError>
  {
    if rest.Err? then rest else Ok((found + rest.value.0, rest.value.1))
  }

  function Meaning(bytes: Bytes): Result<Parsed, WireError> {
    if |bytes| < HEADER_LEN then Err(Short)
    else
      var q := Questions(bytes, HEADER_LEN, ReadU16(bytes, 4));
      if q.Err? then Err(q.error)
      else
        var a := Answers(bytes, q.value, ReadU16(bytes, 6));
        if a.Err? then Err(a.error) else Ok(Parsed(ReadU16(bytes, 0), OutcomeOf(ReadU16(bytes, 2)), a.value.0))
  }

  method SkipQuestions(bytes: Bytes, count: nat) returns (r: Result<nat, WireError>)
    ensures r == Questions(bytes, HEADER_LEN, count)
  {
    var pos: nat := HEADER_LEN;
    for i := 0 to count
      invariant Questions(bytes, HEADER_LEN, count) == Questions(bytes, pos, count - i)
    {
      var name := ParseName(bytes, pos);
      if name.Err? {
        return Err(name.error);
      }
      pos := name.value.1 + 4;
      if pos > |bytes| {
        return Err(Short);
      }
    }
    r := Ok(pos);
  }

  /** One answer record. */
  method ReadAnswer(bytes: Bytes, start: nat) returns (r: Result<(seq<Address>, nat), WireError>)
    ensures r == Answer(bytes, start)
  {
    var name := ParseName(bytes, start);
    if name.Err? {
      return Err(name.error);
    }
    var pos := name.value.1 + 10;
    if pos > |bytes| {
      return Err(Short);
    }
    var rtype, rdlength := ReadU16(bytes, pos - 10), ReadU16(bytes, pos - 2);
    var rdataEnd := pos + rdlength;
    if rdataEnd > |bytes| {
      return Err(Short);
    }
    var rdata, found: seq<Address> := bytes[pos..rdataEnd], [];
    if rtype == TYPE_A && rdlength == 4 {
      found := [V4(rdata)];
    } else if rtype == TYPE_AAAA && rdlength == 16 {
      found := [V6(rdata)];
    }
    r := Ok((found, rdataEnd));
  }

  method CollectAnswers(bytes: Bytes, start: nat, count: nat) returns (r: Result<seq<Address>, WireError>)
    ensures var a := Answers(bytes, start, count);
            r == if a.Err? then Err(a.error) else Ok(a.value.0)
  {
    var pos, addresses: seq<Address> := start, [];
    AddingNone(Answers(bytes, start, count));
    for i := 0 to count
      invariant Answers(bytes, start, count) == Adding(addresses, Answers(bytes, pos, count - i))
    {
      var answer := ReadAnswer(bytes, pos);
      CollectStep(bytes, pos, count - i, addresses);
      if answer.Err? {
        return Err(answer.error);
      }
      addresses := addresses + answer.value.0;
      pos := answer.value.1;
    }
    assert addresses + [] == addresses;
    r := Ok(addresses);
  }

  /** What one more answer adds. */
  lemma CollectStep(bytes: Bytes, pos: nat, n: nat, found: seq<Address>)
    requires n > 0
    ensures var first, all := Answer(bytes, pos), Adding(found, Answers(bytes, pos, n));
            && (first.Err? ==> all == first)
            && (first.Ok? ==> all == Adding(found + first.value.0, Answers(bytes, first.value.1, n - 1)))
  {
    var first := Reading(bytes)(pos);
    if first.Ok? {
      AddingTwice(found, first.value.0, Answers(bytes, first.value.1, n - 1));
    }
  }

  lemma AddingNone(rest: Result<(seq<Address>, nat), WireError>)
    ensures Adding([], rest) == rest
  {
    assert rest.Ok? ==> [] + rest.value.0 == rest.value.0;
  }

  lemma AddingTwice(found: seq<Address>, more: seq<Address>, rest: Result<(seq<Address>, nat), WireError>)
    ensures Adding(found, Adding(more, rest)) == Adding(found + more, rest)
  {
    assert rest.Ok? ==> found + (more + rest.value.0) == found + more + rest.value.0;
  }

  /** `parse_response`: in bounds on every input. */
  method ParseResponse(bytes: Bytes) returns (r: Result<Parsed, WireError>)
    ensures r == Meaning(bytes)
  {
    if |bytes| < HEADER_LEN {
      return Err(Short);
    }
    var outcome := OutcomeOf(ReadU16(bytes, 2));
    var questions := SkipQuestions(bytes, ReadU16(bytes, 4));
    if questions.Err? {
      return Err(questions.error);
    }
    var addresses := CollectAnswers(bytes, questions.value, ReadU16(bytes, 6));
    if addresses.Err? {
      return Err(addresses.error);
    }
    r := Ok(Parsed(ReadU16(bytes, 0), outcome, addresses.value));
  }

  // ---------------------------------------------------------------------
  // Counts are paid for in octets
  // ---------------------------------------------------------------------

  lemma {:induction false} QuestionsCost(bytes: Bytes, pos: nat, n: nat)
    requires pos <= |bytes| && Questions(bytes, pos, n).Ok?
    ensures pos + 5 * n <= Questions(bytes, pos, n).value <= |bytes|
    decreases n
  {
    if n > 0 {
      QuestionsCost(bytes, ParseFrom(bytes, pos, 0).value.1 + 4, n - 1);
    }
  }

  lemma {:induction false} AnswersCost(bytes: Bytes, pos: nat, n: nat)
    requires pos <= |bytes| && Answers(bytes, pos, n).Ok?
    ensures var a := Answers(bytes, pos, n).value; pos + 11 * n + 4 * |a.0| <= a.1 <= |bytes|
    decreases n
  {
    if n > 0 {
      AnswersCost(bytes, Answer(bytes, pos).value.1, n - 1);
    }
  }

  /** A message cannot claim more questions, answers or addresses than its length pays for. */
  lemma ParseBound(bytes: Bytes)
    requires Meaning(bytes).Ok?
    ensures 12 + 5 * ReadU16(bytes, 4) + 11 * ReadU16(bytes, 6) + 4 * |Meaning(bytes).value.addresses| <= |bytes|
  {
    QuestionsCost(bytes, HEADER_LEN, ReadU16(bytes, 4));
    AnswersCost(bytes, Questions(bytes, HEADER_LEN, ReadU16(bytes, 4)).value, ReadU16(bytes, 6));
  }

  // ---------------------------------------------------------------------
  // Round trips
  // ---------------------------------------------------------------------

  /** A record as a resolver writes it, its name a pointer to the question. */
  datatype Record = Record(rtype: U16, class_: U16, ttl: Bytes, rdata: Bytes) {
    predicate Fits() {
      |ttl| == 4 && |rdata| < 0x1_0000
    }
  }

  /** The pointer to the name right after the header. */
  const TO_QUESTION: Bytes := [0xC0, 0x0C]

  function RecordWire(r: Record): (w: Bytes)
    requires r.Fits()
    ensures |w| == 12 + |r.rdata|
  {
    TO_QUESTION + BigEndian(r.rtype) + BigEndian(r.class_) + r.ttl + BigEndian(|r.rdata|) + r.rdata
  }

  function RecordsWire(rs: seq<Record>): Bytes
    requires forall r | r in rs :: r.Fits()
  {
    if rs == [] then [] else RecordWire(rs[0]) + RecordsWire(rs[1..])
  }

  function Carried(rs: seq<Record>): seq<Address> {
    if rs == [] then [] else AddressOf(rs[0].rtype, rs[0].rdata) + Carried(rs[1..])
  }

  function ResponseWire(q: Query, txid: U16, flags: U16, rs: seq<Record>): Bytes
    requires Refusal(q.name).None? && |rs| < 0x1_0000 && forall r | r in rs :: r.Fits()
  {
    Header(txid, flags, 1, |rs|) + QuestionWire(q) + RecordsWire(rs)
  }

  lemma RecordRead(bytes: Bytes, pos: nat, r: Record)
    requires r.Fits() && Holds(bytes, pos, RecordWire(r)) && ParseFrom(bytes, HEADER_LEN, 1).Ok?
    ensures Answer(bytes, pos) == Ok((AddressOf(r.rtype, r.rdata), pos + |RecordWire(r)|))
  {
    var w := RecordWire(r);
    assert bytes[pos] == w[0] && bytes[pos + 1] == w[1];
    assert Pointer(bytes[pos], bytes[pos + 1]) == HEADER_LEN;
    assert bytes[pos + 2] == w[2] && bytes[pos + 3] == w[3] && bytes[pos + 10] == w[10] && bytes[pos + 11] == w[11];
    assert ReadU16(bytes, pos + 2) == r.rtype && ReadU16(bytes, pos + 10) == |r.rdata|;
    assert bytes[pos + 12..pos + |w|] == r.rdata by {
      forall i | 0 <= i < |r.rdata| ensures bytes[pos + 12 + i] == r.rdata[i] {
        assert w[12 + i] == r.rdata[i];
      }
    }
  }

  function RecordsLen(rs: seq<Record>): nat {
    if rs == [] then 0 else 12 + |rs[0].rdata| + RecordsLen(rs[1..])
  }

  lemma {:induction false} RecordsLenIs(rs: seq<Record>)
    requires forall r | r in rs :: r.Fits()
    ensures |RecordsWire(rs)| == RecordsLen(rs)
  {
    if rs != [] {
      RecordsLenIs(rs[1..]);
    }
  }

  /** From `pos` on, `g` reads one record after the other. */
  predicate Yields(g: AnswerReader, pos: nat, rs: seq<Record>)
    decreases |rs|
  {
    rs == []
    || (var next := pos + 12 + |rs[0].rdata|;
        g(pos) == Ok((AddressOf(rs[0].rtype, rs[0].rdata), next)) && Yields(g, next, rs[1..]))
  }

  lemma {:induction false} YieldsAll(g: AnswerReader, pos: nat, rs: seq<Record>)
    requires Yields(g, pos, rs)
    ensures Gather(g, pos, |rs|) == Ok((Carried(rs), pos + RecordsLen(rs)))
    decreases |rs|
  {
    if rs != [] {
      YieldsAll(g, pos + 12 + |rs[0].rdata|, rs[1..]);
    }
  }

  lemma RecordStep(bytes: Bytes, pos: nat, rs: seq<Record>)
    requires rs != [] && (forall r | r in rs :: r.Fits()) && Holds(bytes, pos, RecordsWire(rs))
    requires ParseFrom(bytes, HEADER_LEN, 1).Ok?
    ensures var next := pos + 12 + |rs[0].rdata|;
            && Reading(bytes)(pos) == Ok((AddressOf(rs[0].rtype, rs[0].rdata), next))
            && Holds(bytes, next, RecordsWire(rs[1..]))
  {
    HoldsCut(bytes, pos, RecordWire(rs[0]), RecordsWire(rs[1..]));
    RecordRead(bytes, pos, rs[0]);
  }

  lemma {:induction false} RecordsYielded(bytes: Bytes, pos: nat, rs: seq<Record>)
    requires (forall r | r in rs :: r.Fits()) && Holds(bytes, pos, RecordsWire(rs))
    requires ParseFrom(bytes, HEADER_LEN, 1).Ok?
    ensures Yields(Reading(bytes), pos, rs)
    decreases |rs|
  {
    if rs != [] {
      RecordStep(bytes, pos, rs);
      RecordsYielded(bytes, pos + 12 + |rs[0].rdata|, rs[1..]);
    }
  }

  lemma RecordsRead(bytes: Bytes, pos: nat, rs: seq<Record>)
    requires (forall r | r in rs :: r.Fits()) && Holds(bytes, pos, RecordsWire(rs))
    requires ParseFrom(bytes, HEADER_LEN, 1).Ok?
    ensures Answers(bytes, pos, |rs|) == Ok((Carried(rs), pos + |RecordsWire(rs)|))
  {
    RecordsGathered(bytes, pos, rs);
    RecordsLenIs(rs);
  }

  lemma RecordsGathered(bytes: Bytes, pos: nat, rs: seq<Record>)
    requires (forall r | r in rs :: r.Fits()) && Holds(bytes, pos, RecordsWire(rs))
    requires ParseFrom(bytes, HEADER_LEN, 1).Ok?
    ensures Gather(Reading(bytes), pos, |rs|) == Ok((Carried(rs), pos + RecordsLen(rs)))
  {
    RecordsYielded(bytes, pos, rs);
    YieldsAll(Reading(bytes), pos, rs);
  }

  lemma HeaderRead(bytes: Bytes, txid: U16, flags: U16, qdcount: U16, ancount: U16)
    requires Holds(bytes, 0, Header(txid, flags, qdcount, ancount))
    ensures ReadU16(bytes, 0) == txid && ReadU16(bytes, 2) == flags
    ensures ReadU16(bytes, 4) == qdcount && ReadU16(bytes, 6) == ancount
  {
    var w := Header(txid, flags, qdcount, ancount);
    assert bytes[0] == w[0] && bytes[1] == w[1] && bytes[2] == w[2] && bytes[3] == w[3];
    assert bytes[4] == w[4] && bytes[5] == w[5] && bytes[6] == w[6] && bytes[7] == w[7];
  }

  lemma QuestionRead(bytes: Bytes, q: Query)
    requires Utf8(q.name) && Refusal(q.name).None? && Holds(bytes, HEADER_LEN, QuestionWire(q))
    ensures Questions(bytes, HEADER_LEN, 1) == Ok(HEADER_LEN + |QuestionWire(q)|)
    ensures ParseFrom(bytes, HEADER_LEN, 1).Ok?
  {
    var tail := BigEndian(q.recordType.AsWire()) + BigEndian(CLASS_IN);
    assert QuestionWire(q) == NameWire(q.name) + tail;
    HoldsCut(bytes, HEADER_LEN, NameWire(q.name), tail);
    NameRoundTrip(bytes, HEADER_LEN, q.name, 0);
    NameRoundTrip(bytes, HEADER_LEN, q.name, 1);
    QuestionSkips(bytes, HEADER_LEN + |NameWire(q.name)|);
  }

  lemma QuestionSkips(bytes: Bytes, end: nat)
    requires var d := ParseFrom(bytes, HEADER_LEN, 0); d.Ok? && d.value.1 == end && end + 4 <= |bytes|
    ensures Questions(bytes, HEADER_LEN, 1) == Ok(end + 4)
  {
    assert Questions(bytes, end + 4, 0) == Ok(end + 4);
  }

  /**
   A response whose records name the question by a compression pointer parses
   to its id, its outcome and exactly the addresses its records carry, in order.
   */
  lemma ResponseRoundTrip(q: Query, txid: U16, flags: U16, rs: seq<Record>)
    requires Utf8(q.name) && Refusal(q.name).None? && |rs| < 0x1_0000 && forall r | r in rs :: r.Fits()
    ensures Meaning(ResponseWire(q, txid, flags, rs)) == Ok(Parsed(txid, OutcomeOf(flags), Carried(rs)))
  {
    var bytes := ResponseWire(q, txid, flags, rs);
    ResponseParts(bytes, q, txid, flags, rs);
    HeaderRead(bytes, txid, flags, 1, |rs|);
    QuestionRead(bytes, q);
    RecordsRead(bytes, HEADER_LEN + |QuestionWire(q)|, rs);
  }

  lemma ResponseParts(bytes: Bytes, q: Query, txid: U16, flags: U16, rs: seq<Record>)
    requires Refusal(q.name).None? && |rs| < 0x1_0000 && forall r | r in rs :: r.Fits()
    requires bytes == ResponseWire(q, txid, flags, rs)
    ensures Holds(bytes, 0, Header(txid, flags, 1, |rs|)) && Holds(bytes, HEADER_LEN, QuestionWire(q))
    ensures Holds(bytes, HEADER_LEN + |QuestionWire(q)|, RecordsWire(rs))
  {
    Parts(Header(txid, flags, 1, |rs|), QuestionWire(q), RecordsWire(rs));
  }

  lemma Parts(a: Bytes, b: Bytes, c: Bytes)
    ensures Holds(a + b + c, 0, a) && Holds(a + b + c, |a|, b) && Holds(a + b + c, |a| + |b|, c)
  {
    assert Holds(a + b + c, 0, a + b + c);
    HoldsCut(a + b + c, 0, a + b, c);
    HoldsCut(a + b + c, 0, a, b);
  }

  /** Parsing an encoded query gives its id back, no error and no addresses. */
  lemma QueryRoundTrip(q: Query, txid: U16)
    requires Utf8(q.name) && Refusal(q.name).None?
    ensures Meaning(QueryWire(q, txid)) == Ok(Parsed(txid, NoError, []))
  {
    ResponseRoundTrip(q, txid, FLAG_RD, []);
    assert ResponseWire(q, txid, FLAG_RD, []) == QueryWire(q, txid);
  }

  /** What a parsed message says, octet by octet: the id, the truncation bit and the response code. */
  lemma ParsedOctets(bytes: Bytes)
    requires Meaning(bytes).Ok?
    ensures |bytes| >= 12
    ensures var p, code := Meaning(bytes).value, bytes[3] % 16;
            && p.txid == bytes[0] as nat * 256 + bytes[1]
            && (p.outcome == Truncated <==> bytes[2] / 2 % 2 == 1)
            && (p.outcome == NoError <==> bytes[2] / 2 % 2 == 0 && code == 0)
            && (p.outcome == ServFail <==> bytes[2] / 2 % 2 == 0 && code == 2)
            && (p.outcome == NxDomain <==> bytes[2] / 2 % 2 == 0 && code == 3)
            && (p.outcome == Refused <==> bytes[2] / 2 % 2 == 0 && code == 5)
  {
    FlagBits(bytes[2], bytes[3]);
  }

  lemma FlagBits(hi: Byte, lo: Byte)
    ensures (hi as nat * 256 + lo) / 0x0200 % 2 == hi / 2 % 2 && (hi as nat * 256 + lo) % 16 == lo % 16
  {
    assert (hi as nat * 256 + lo) / 256 == hi;
    assert (hi as nat * 256 + lo) / 0x0200 == hi / 2;
  }

  /** Only address records of the right length carry an address: type 1 with 4 octets, type 28 with 16. */
  lemma AddressExactly(rtype: U16, rdata: Bytes)
    ensures AddressOf(rtype, rdata) == [] <==> !(rtype == 1 && |rdata| == 4) && !(rtype == 28 && |rdata| == 16)
    ensures rtype == 1 && |rdata| == 4 ==> AddressOf(rtype, rdata) == [V4(rdata)]
    ensures rtype == 28 && |rdata| == 16 ==> AddressOf(rtype, rdata) == [V6(rdata)]
  {
  }

  /** Where each field of an encoded query is: one recursive question and nothing else. */
  lemma QueryFields(q: Query, txid: U16)
    requires Refusal(q.name).None?
    ensures var w, end := QueryWire(q, txid), HEADER_LEN + |NameWire(q.name)|;
            && |w| == end + 4 && w[HEADER_LEN..end] == NameWire(q.name)
            && ReadU16(w, 0) == txid && ReadU16(w, 2) == FLAG_RD
            && ReadU16(w, 4) == 1 && ReadU16(w, 6) == ReadU16(w, 8) == ReadU16(w, 10) == 0
            && ReadU16(w, end) == q.recordType.AsWire() && ReadU16(w, end + 2) == CLASS_IN
  {
    var w, name := QueryWire(q, txid), NameWire(q.name);
    var header, tail := Header(txid, FLAG_RD, 1, 0), BigEndian(q.recordType.AsWire()) + BigEndian(CLASS_IN);
    assert w == header + name + tail;
    Parts(header, name, tail);
    HeaderRead(w, txid, FLAG_RD, 1, 0);
    assert forall i | 8 <= i < 12 :: w[i] == header[i] == 0;
    assert forall i | 0 <= i < 4 :: w[HEADER_LEN + |name| + i] == tail[i];
  }

  /** The octets of an encoded query around its name, most significant first. */
  lemma QueryOctets(q: Query, txid: U16)
    requires Refusal(q.name).None?
    ensures var w, end := QueryWire(q, txid), 12 + |NameWire(q.name)|;
            && |w| == end + 4
            && w[..12] == [txid / 256, txid % 256, 1, 0, 0, 1, 0, 0, 0, 0, 0, 0]
            && w[end..] == [0, if q.recordType.A? then 1 else if q.recordType.Cname? then 5 else 28, 0, 1]
  {
    var header, tail := Header(txid, FLAG_RD, 1, 0), BigEndian(q.recordType.AsWire()) + BigEndian(CLASS_IN);
    assert QueryWire(q, txid) == header + NameWire(q.name) + tail;
    Parts(header, NameWire(q.name), tail);
  }

  // ---------------------------------------------------------------------
  // Messages that were cut
  // ---------------------------------------------------------------------

  lemma {:induction false} CutQuestions(bytes: Bytes, k: nat, pos: nat, n: nat)
    requires k <= |bytes|
    ensures var cut := Questions(bytes[..k], pos, n); cut == Err(Short) || cut == Questions(bytes, pos, n)
    decreases n
  {
    if n > 0 {
      CutName(bytes, k, pos, 0);
      var d := ParseFrom(bytes[..k], pos, 0);
      if d.Ok? {
        CutQuestions(bytes, k, d.value.1 + 4, n - 1);
      }
    }
  }

  lemma CutRecord(bytes: Bytes, k: nat, at: nat)
    requires k <= |bytes|
    ensures var cut := RecordAt(bytes[..k], at); cut == Err(Short) || cut == RecordAt(bytes, at)
  {
    if at + 10 <= k {
      var end := at + 10 + ReadU16(bytes, at + 8);
      if end <= k {
        assert bytes[..k][at + 10..end] == bytes[at + 10..end];
      }
    }
  }

  lemma CutAnswer(bytes: Bytes, k: nat, pos: nat)
    requires k <= |bytes|
    ensures var cut := Answer(bytes[..k], pos); cut == Err(Short) || cut == Answer(bytes, pos)
  {
    CutName(bytes, k, pos, 0);
    var d := ParseFrom(bytes[..k], pos, 0);
    if d.Ok? {
      CutRecord(bytes, k, d.value.1);
    }
  }

  lemma {:induction false} CutAnswers(bytes: Bytes, k: nat, pos: nat, n: nat)
    requires k <= |bytes|
    ensures var cut := Answers(bytes[..k], pos, n); cut == Err(Short) || cut == Answers(bytes, pos, n)
    decreases n
  {
    if n > 0 {
      CutAnswer(bytes, k, pos);
      var first := Reading(bytes[..k])(pos);
      if first.Ok? {
        CutAnswers(bytes, k, first.value.1, n - 1);
      }
    }
  }

  /** The addresses after so many questions and answers. */
  function Sections(bytes: Bytes, questions: nat, answers: nat): Result<seq<Address>, WireError> {
    var q := Questions(bytes, HEADER_LEN, questions);
    if q.Err? then Err(q.error)
    else
      var a := Answers(bytes, q.value, answers);
      if a.Err? then Err(a.error) else Ok(a.value.0)
  }

  lemma CutSections(bytes: Bytes, k: nat, questions: nat, answers: nat)
    requires k <= |bytes|
    ensures var cut := Sections(bytes[..k], questions, answers);
            cut == Err(Short) || cut == Sections(bytes, questions, answers)
  {
    CutQuestions(bytes, k, HEADER_LEN, questions);
    var q := Questions(bytes[..k], HEADER_LEN, questions);
    if q.Ok? {
      CutAnswers(bytes, k, q.value, answers);
    }
  }

  lemma MeaningOf(bytes: Bytes)
    requires |bytes| >= HEADER_LEN
    ensures var a := Sections(bytes, ReadU16(bytes, 4), ReadU16(bytes, 6));
            Meaning(bytes) == if a.Err? then Err(a.error)
                              else Ok(Parsed(ReadU16(bytes, 0), OutcomeOf(ReadU16(bytes, 2)), a.value))
  {
  }

  /** A message that was cut anywhere means the same, or is found to be short: it is never misread. */
  lemma CutIsShort(bytes: Bytes, k: nat)
    requires k <= |bytes|
    ensures Meaning(bytes[..k]) == Err(Short) || Meaning(bytes[..k]) == Meaning(bytes)
  {
    if k >= HEADER_LEN {
      CutSections(bytes, k, ReadU16(bytes, 4), ReadU16(bytes, 6));
      MeaningOf(bytes);
      MeaningOf(bytes[..k]);
    }
  }
}
