/** The write-ahead log's record format: a 4-byte length, then the body, then the
    body's checksum, all integers big-endian; and the replay parser. The checksum
    function is a parameter, so nothing here depends on which one it is. */
module WalCodec {
  import opened Basics

  const U32: nat := 0x1_0000_0000
  type u32 = n: nat | n < 0x1_0000_0000
  type Checksum = Bytes -> u32

  const OP_PUT: byte := 0
  const OP_DELETE: byte := 1

  datatype Record = Record(op: byte, key: Bytes, value: Bytes)

  datatype Error = ShortLength | MissingData | RecordTooSmall | InvalidLength | ChecksumMismatch

  // ----- Big-endian integers -----

  // How many values k bytes can hold.
  function Range(k: nat): (n: nat)
    ensures n >= 1
  {
    if k == 0 then 1 else 256 * Range(k - 1)
  }

  // The last k digits of n to base 256, the most significant first.
  function Digits(n: nat, k: nat): (b: Bytes)
    ensures |b| == k
    decreases n, k
  {
    if k == 0 then [] else Digits(n / 256, k - 1) + [(n % 256) as byte]
  }

  function FromDigits(b: Bytes): (n: nat)
    ensures n < Range(|b|)
  {
    if |b| == 0 then 0 else 256 * FromDigits(b[..|b| - 1]) + b[|b| - 1] as nat
  }

  lemma {:induction false} DigitsRoundTrip(n: nat, k: nat)
    requires n < Range(k)
    ensures FromDigits(Digits(n, k)) == n
    decreases k
  {
    if k > 0 {
      DigitsRoundTrip(n / 256, k - 1);
      assert Digits(n, k)[..k - 1] == Digits(n / 256, k - 1);
    }
  }

  lemma {:induction false} FromDigitsRoundTrip(b: Bytes)
    ensures Digits(FromDigits(b), |b|) == b
  {
    if |b| > 0 {
      var init := b[..|b| - 1];
      FromDigitsRoundTrip(init);
      assert FromDigits(b) / 256 == FromDigits(init);
      assert b == init + [b[|b| - 1]];
    }
  }

  lemma FourBytesRange()
    ensures Range(4) == U32
  {
    assert Range(2) == 256 * 256;
    assert Range(3) == 256 * 256 * 256;
  }

  function BigEndian(n: u32): (b: Bytes)
    ensures |b| == 4
  {
    Digits(n, 4)
  }

  function FromBigEndian(b: Bytes): (n: u32)
    requires |b| == 4
  {
    FourBytesRange();
    FromDigits(b)
  }

  lemma BigEndianRoundTrip(n: u32)
    ensures FromBigEndian(BigEndian(n)) == n
  {
    FourBytesRange();
    DigitsRoundTrip(n, 4);
  }

  lemma FromBigEndianRoundTrip(b: Bytes)
    requires |b| == 4
    ensures BigEndian(FromBigEndian(b)) == b
  {
    FromDigitsRoundTrip(b);
  }

  // ----- One record -----

  // uint32(len(...)) wraps around.
  function Header(r: Record): (h: Bytes)
    ensures |h| == 9
  {
    [r.op] + BigEndian(|r.key| % U32) + BigEndian(|r.value| % U32)
  }

  function Body(r: Record): (b: Bytes)
    ensures |b| == 9 + |r.key| + |r.value|
  {
    Header(r) + r.key + r.value
  }

  // Everything after the length field.
  function Payload(crc: Checksum, r: Record): (b: Bytes)
    ensures |b| == 13 + |r.key| + |r.value|
  {
    Body(r) + BigEndian(crc(Body(r)))
  }

  function Encode(crc: Checksum, r: Record): (b: Bytes)
    ensures |b| == 17 + |r.key| + |r.value|
  {
    BigEndian(|Payload(crc, r)| % U32) + Payload(crc, r)
  }

  function Decode(crc: Checksum, data: Bytes): (decoded: Result<Record, Error>) {
    if |data| < 13 then Err(RecordTooSmall)
    else
      var keyLen, valueLen := FromBigEndian(data[1..5]), FromBigEndian(data[5..9]);
      if |data| != 9 + keyLen + valueLen + 4 then Err(InvalidLength)
      else
        var keyEnd := 9 + keyLen;
        var valueEnd := keyEnd + valueLen;
        if FromBigEndian(data[valueEnd..]) != crc(data[..valueEnd]) then Err(ChecksumMismatch)
        else Ok(Record(data[0], data[9..keyEnd], data[keyEnd..valueEnd]))
  }

  // The record's length field does not wrap around.
  predicate Fits(r: Record) {
    13 + |r.key| + |r.value| < U32
  }

  lemma PayloadParts(crc: Checksum, r: Record)
    requires |r.key| < U32 && |r.value| < U32
    ensures var data, keyEnd, valueEnd := Payload(crc, r), 9 + |r.key|, 9 + |r.key| + |r.value|;
      && data[1..5] == BigEndian(|r.key|) && data[5..9] == BigEndian(|r.value|)
      && r == Record(data[0], data[9..keyEnd], data[keyEnd..valueEnd])
      && data[valueEnd..] == BigEndian(crc(data[..valueEnd]))
  {
    HeaderFields(r);
    FourParts(Header(r), r.key, r.value, BigEndian(crc(Body(r))));
  }

  lemma HeaderFields(r: Record)
    requires |r.key| < U32 && |r.value| < U32
    ensures Header(r)[0] == r.op && Header(r)[1..5] == BigEndian(|r.key|) && Header(r)[5..9] == BigEndian(|r.value|)
  {
    FitsIn(|r.key|);
    FitsIn(|r.value|);
    var keyField, valueField := BigEndian(|r.key|), BigEndian(|r.value|);
    assert ([r.op] + keyField + valueField)[1..5] == keyField;
    assert ([r.op] + keyField + valueField)[5..9] == valueField;
  }

  lemma FitsIn(n: nat)
    requires n < U32
    ensures n % U32 == n
  {
  }

  lemma FourParts(a: Bytes, b: Bytes, c: Bytes, d: Bytes)
    requires |a| == 9
    ensures var all, i, j := a + b + c + d, 9 + |b|, 9 + |b| + |c|;
      && all[0] == a[0] && all[1..5] == a[1..5] && all[5..9] == a[5..9]
      && all[9..i] == b && all[i..j] == c && all[..j] == a + b + c && all[j..] == d
  {
  }

  lemma DecodedParts(crc: Checksum, data: Bytes)
    requires Decode(crc, data).Ok?
    ensures var r := Decode(crc, data).value;
      var keyEnd, valueEnd := 9 + |r.key|, 9 + |r.key| + |r.value|;
      && |data| == valueEnd + 4 && r == Record(data[0], data[9..keyEnd], data[keyEnd..valueEnd])
      && |r.key| == FromBigEndian(data[1..5]) && |r.value| == FromBigEndian(data[5..9])
      && crc(data[..valueEnd]) == FromBigEndian(data[valueEnd..])
  {
  }

  lemma DecodeFromParts(crc: Checksum, data: Bytes, r: Record, keyEnd: nat, valueEnd: nat)
    requires keyEnd == 9 + |r.key| && valueEnd == keyEnd + |r.value| && |data| == valueEnd + 4
    requires |r.key| < U32 && |r.value| < U32
    requires data[1..5] == BigEndian(|r.key|) && data[5..9] == BigEndian(|r.value|)
    requires data[valueEnd..] == BigEndian(crc(data[..valueEnd]))
    requires r == Record(data[0], data[9..keyEnd], data[keyEnd..valueEnd])
    ensures Decode(crc, data) == Ok(r)
  {
    BigEndianRoundTrip(|r.key|);
    BigEndianRoundTrip(|r.value|);
    BigEndianRoundTrip(crc(data[..valueEnd]));
  }

  lemma PayloadDecodes(crc: Checksum, r: Record)
    requires |r.key| < U32 && |r.value| < U32
    ensures Decode(crc, Payload(crc, r)) == Ok(r)
  {
    PayloadParts(crc, r);
    DecodeFromParts(crc, Payload(crc, r), r, 9 + |r.key|, 9 + |r.key| + |r.value|);
  }

  // Decoding what was encoded gives the record back exactly when the two length
  // fields of the body can hold the lengths.
  lemma DecodeEncoded(crc: Checksum, r: Record)
    ensures Decode(crc, Payload(crc, r)) == Ok(r) <==> |r.key| < U32 && |r.value| < U32
  {
    if |r.key| < U32 && |r.value| < U32 {
      PayloadDecodes(crc, r);
    }
    if Decode(crc, Payload(crc, r)) == Ok(r) {
      DecodedParts(crc, Payload(crc, r));
    }
  }

  lemma HeaderOf(data: Bytes, r: Record)
    requires |data| >= 9 && r.op == data[0]
    requires |r.key| == FromBigEndian(data[1..5]) && |r.value| == FromBigEndian(data[5..9])
    ensures Header(r) == data[..9]
  {
    FieldOf(data[1..5], |r.key|);
    FieldOf(data[5..9], |r.value|);
    HeaderBytes(data);
  }

  lemma FieldOf(field: Bytes, n: nat)
    requires |field| == 4 && n == FromBigEndian(field)
    ensures BigEndian(n % U32) == field
  {
    FromBigEndianRoundTrip(field);
  }

  lemma HeaderBytes(data: Bytes)
    requires |data| >= 9
    ensures data[..9] == [data[0]] + data[1..5] + data[5..9]
  {
  }

  lemma PayloadOf(crc: Checksum, data: Bytes, r: Record, keyEnd: nat, valueEnd: nat)
    requires 9 <= keyEnd <= valueEnd && |data| == valueEnd + 4
    requires Header(r) == data[..9] && r.key == data[9..keyEnd] && r.value == data[keyEnd..valueEnd]
    requires crc(data[..valueEnd]) == FromBigEndian(data[valueEnd..])
    ensures Payload(crc, r) == data
  {
    assert data[..valueEnd] == data[..9] + data[9..keyEnd] + data[keyEnd..valueEnd];
    FromBigEndianRoundTrip(data[valueEnd..]);
    assert data == data[..valueEnd] + data[valueEnd..];
  }

  // Encoding what was decoded gives the bytes back, behind their length.
  lemma EncodeDecoded(crc: Checksum, data: Bytes)
    requires Decode(crc, data).Ok? && |data| < U32
    ensures var r := Decode(crc, data).value;
      Fits(r) && Payload(crc, r) == data && Encode(crc, r) == BigEndian(|data|) + data
  {
    var r := Decode(crc, data).value;
    assert Fits(r) && Payload(crc, r) == data by {
      DecodedPayload(crc, data, r);
    }
    EncodeIs(crc, r);
  }

  lemma DecodedPayload(crc: Checksum, data: Bytes, r: Record)
    requires Decode(crc, data) == Ok(r) && |data| < U32
    ensures Fits(r) && Payload(crc, r) == data
  {
    DecodedParts(crc, data);
    assert Header(r) == data[..9] by { HeaderOf(data, r); }
    PayloadOf(crc, data, r, 9 + |r.key|, 9 + |r.key| + |r.value|);
  }

  // ----- A file of records -----

  function EncodeAll(crc: Checksum, rs: seq<Record>): (b: Bytes) {
    if |rs| == 0 then [] else Encode(crc, rs[0]) + EncodeAll(crc, rs[1..])
  }

  // Replay: nothing left ends the log, and so does a record cut inside its data; a
  // cut inside or right behind the length field is an error.
  function Parse(crc: Checksum, file: Bytes): (found: Result<seq<Record>, Error>) {
    if |file| == 0 then Ok([])
    else if |file| < 4 then Err(ShortLength)
    else
      var length, rest := FromBigEndian(file[..4]), file[4..];
      if |rest| == 0 && length > 0 then Err(MissingData)
      else if |rest| < length then Ok([])
      else
        match Decode(crc, rest[..length])
        case Err(e) => Err(e)
        case Ok(r) =>
          match Parse(crc, rest[length..])
          case Err(e) => Err(e)
          case Ok(rs) => Ok([r] + rs)
  }

  // A tail replay stops at: nothing, or more than a length field of a record whose
  // data is incomplete.
  predicate Torn(tail: Bytes) {
    |tail| == 0 || (|tail| >= 5 && |tail| - 4 < FromBigEndian(tail[..4]))
  }

  predicate AllFit(rs: seq<Record>) {
    forall i :: 0 <= i < |rs| ==> Fits(rs[i])
  }

  // One turn of the replay loop on a file that starts with a whole record.
  lemma ParseTurn(crc: Checksum, length: u32, data: Bytes, rest: Bytes)
    requires |data| == length > 0
    ensures Parse(crc, BigEndian(length) + data + rest) ==
      match Decode(crc, data)
      case Err(e) => Err(e)
      case Ok(r) => match Parse(crc, rest) case Err(e) => Err(e) case Ok(rs) => Ok([r] + rs)
  {
    var file := BigEndian(length) + data + rest;
    BigEndianRoundTrip(length);
    assert file[..4] == BigEndian(length);
    assert file[4..] == data + rest;
    assert (data + rest)[..length] == data && (data + rest)[length..] == rest;
  }

  // A whole record in front is returned first.
  lemma ParseRecord(crc: Checksum, r: Record, rest: Bytes)
    requires Fits(r)
    ensures Parse(crc, Encode(crc, r) + rest) ==
      match Parse(crc, rest) case Err(e) => Err(e) case Ok(rs) => Ok([r] + rs)
  {
    EncodeIs(crc, r);
    PayloadDecodes(crc, r);
    ParseFramed(crc, r, Encode(crc, r), Payload(crc, r), rest);
  }

  lemma EncodeIs(crc: Checksum, r: Record)
    requires Fits(r)
    ensures var data := Payload(crc, r);
      13 <= |data| < U32 && Encode(crc, r) == BigEndian(|data|) + data
  {
    FitsIn(|Payload(crc, r)|);
  }

  lemma ParseFramed(crc: Checksum, r: Record, framed: Bytes, data: Bytes, rest: Bytes)
    requires 0 < |data| < U32 && framed == BigEndian(|data|) + data && Decode(crc, data) == Ok(r)
    ensures Parse(crc, framed + rest) ==
      match Parse(crc, rest) case Err(e) => Err(e) case Ok(rs) => Ok([r] + rs)
  {
    ParseTurn(crc, |data|, data, rest);
  }

  function Prepend(rs: seq<Record>, more: Result<seq<Record>, Error>): (found: Result<seq<Record>, Error>) {
    match more case Err(e) => Err(e) case Ok(others) => Ok(rs + others)
  }

  // Whole records before anything at all.
  lemma {:induction false} ParseRecords(crc: Checksum, rs: seq<Record>, rest: Bytes)
    requires AllFit(rs)
    ensures Parse(crc, EncodeAll(crc, rs) + rest) == Prepend(rs, Parse(crc, rest))
  {
    if |rs| == 0 {
      assert EncodeAll(crc, rs) + rest == rest;
      assert Prepend(rs, Parse(crc, rest)) == Parse(crc, rest) by {
        if Parse(crc, rest).Ok? { assert rs + Parse(crc, rest).value == Parse(crc, rest).value; }
      }
    } else {
      var tail := EncodeAll(crc, rs[1..]) + rest;
      assert Parse(crc, tail) == Prepend(rs[1..], Parse(crc, rest)) by {
        ParseRecords(crc, rs[1..], rest);
      }
      assert Parse(crc, Encode(crc, rs[0]) + tail) == Prepend([rs[0]], Parse(crc, tail)) by {
        ParseRecord(crc, rs[0], tail);
      }
      EncodeAllUnfolds(crc, rs, rest);
      PrependTwice(rs, Parse(crc, rest));
    }
  }

  lemma EncodeAllUnfolds(crc: Checksum, rs: seq<Record>, rest: Bytes)
    requires |rs| > 0
    ensures EncodeAll(crc, rs) + rest == Encode(crc, rs[0]) + (EncodeAll(crc, rs[1..]) + rest)
  {
  }

  lemma PrependTwice(rs: seq<Record>, more: Result<seq<Record>, Error>)
    requires |rs| > 0
    ensures Prepend([rs[0]], Prepend(rs[1..], more)) == Prepend(rs, more)
  {
    if more.Ok? { assert [rs[0]] + (rs[1..] + more.value) == rs + more.value; }
  }

  lemma ParseTorn(crc: Checksum, tail: Bytes)
    requires Torn(tail)
    ensures Parse(crc, tail) == Ok([])
  {
  }

  lemma ParseComplete(crc: Checksum, rs: seq<Record>, tail: Bytes)
    requires AllFit(rs) && Torn(tail)
    ensures Parse(crc, EncodeAll(crc, rs) + tail) == Ok(rs)
  {
    ParseTorn(crc, tail);
    ParseRecords(crc, rs, tail);
    assert rs + [] == rs;
  }

  // The file starts with these records, and replay stops behind them.
  predicate Holds(crc: Checksum, file: Bytes, rs: seq<Record>) {
    AllFit(rs) && EncodeAll(crc, rs) <= file && Torn(file[|EncodeAll(crc, rs)|..])
  }

  lemma HoldsOneMore(crc: Checksum, r: Record, rest: Bytes, rs: seq<Record>)
    requires Fits(r) && Holds(crc, rest, rs)
    ensures Holds(crc, Encode(crc, r) + rest, [r] + rs)
  {
    assert ([r] + rs)[1..] == rs;
    var n := |EncodeAll(crc, rs)|;
    var file := Encode(crc, r) + rest;
    assert rest == rest[..n] + rest[n..];
    assert EncodeAll(crc, [r] + rs) == Encode(crc, r) + rest[..n];
    assert file[|Encode(crc, r)| + n..] == rest[n..];
  }

  // Whatever replay returns on arbitrary bytes is there in the file, encoded, and
  // what follows is a torn tail.
  lemma {:induction false} ParseSound(crc: Checksum, file: Bytes)
    requires Parse(crc, file).Ok?
    ensures Holds(crc, file, Parse(crc, file).value)
  {
    if |file| == 0 {
    } else {
      var length, rest := FromBigEndian(file[..4]), file[4..];
      if |rest| < length {
        assert file[0..] == file;
      } else {
        var data, more := rest[..length], rest[length..];
        assert Decode(crc, data).Ok? && Parse(crc, more).Ok?;
        var r, rs := Decode(crc, data).value, Parse(crc, more).value;
        assert Parse(crc, file).value == [r] + rs;
        ParseSound(crc, more);
        FileStartsWithRecord(crc, file, length);
        HoldsOneMore(crc, r, more, rs);
      }
    }
  }

  lemma FileStartsWithRecord(crc: Checksum, file: Bytes, length: u32)
    requires |file| >= 4 && length == FromBigEndian(file[..4]) && |file| - 4 >= length
    requires Decode(crc, file[4..][..length]).Ok?
    ensures var r := Decode(crc, file[4..][..length]).value;
      Fits(r) && file == Encode(crc, r) + file[4..][length..]
  {
    var data := file[4..][..length];
    EncodeDecoded(crc, data);
    FromBigEndianRoundTrip(file[..4]);
    ThreeParts(file, length);
  }

  lemma ThreeParts(file: Bytes, length: nat)
    requires |file| >= 4 + length
    ensures file == file[..4] + file[4..][..length] + file[4..][length..]
  {
  }

  // Replay accepts exactly the files that are records and a torn tail.
  lemma ParseExactly(crc: Checksum, file: Bytes, rs: seq<Record>)
    ensures Parse(crc, file) == Ok(rs) <==> Holds(crc, file, rs)
  {
    if Parse(crc, file) == Ok(rs) {
      ParseSound(crc, file);
    }
    if Holds(crc, file, rs) {
      ParseComplete(crc, rs, file[|EncodeAll(crc, rs)|..]);
      assert file == EncodeAll(crc, rs) + file[|EncodeAll(crc, rs)|..];
    }
  }

  // A record survives a round trip through the file exactly when it fits.
  lemma ReplayEncodedIffFits(crc: Checksum, r: Record)
    ensures Parse(crc, Encode(crc, r)) == Ok([r]) <==> Fits(r)
  {
    assert EncodeAll(crc, [r]) == Encode(crc, r) + EncodeAll(crc, []) == Encode(crc, r);
    ParseExactly(crc, Encode(crc, r), [r]);
    assert [r][0] == r;
  }

  // ----- Writing behind a torn tail -----

  // The tail's length field swallows what is written behind it.
  lemma TornTailHides(crc: Checksum, earlier: seq<Record>, tail: Bytes, more: Bytes)
    requires AllFit(earlier) && |tail| >= 5 && |tail| - 4 + |more| < FromBigEndian(tail[..4])
    ensures Parse(crc, EncodeAll(crc, earlier) + tail + more) == Ok(earlier)
  {
    assert (tail + more)[..4] == tail[..4];
    ParseComplete(crc, earlier, tail + more);
    assert EncodeAll(crc, earlier) + tail + more == EncodeAll(crc, earlier) + (tail + more);
  }

  // Whatever is written next survives exactly when nothing is torn.
  lemma AppendingIsSafeIffNoTail(crc: Checksum, earlier: seq<Record>, tail: Bytes)
    requires AllFit(earlier)
    ensures tail == [] <==> forall rs :: AllFit(rs) ==>
      Parse(crc, EncodeAll(crc, earlier) + tail + EncodeAll(crc, rs)) == Ok(earlier + rs)
  {
    if tail == [] {
      forall rs | AllFit(rs)
        ensures Parse(crc, EncodeAll(crc, earlier) + tail + EncodeAll(crc, rs)) == Ok(earlier + rs)
      {
        AppendsBehind(crc, earlier, rs);
      }
    } else {
      var rs := LostBehind(crc, earlier, tail);
    }
  }

  lemma AppendsBehind(crc: Checksum, earlier: seq<Record>, rs: seq<Record>)
    requires AllFit(earlier) && AllFit(rs)
    ensures Parse(crc, EncodeAll(crc, earlier) + [] + EncodeAll(crc, rs)) == Ok(earlier + rs)
  {
    EncodeAllAppends(crc, earlier, rs);
    ParseComplete(crc, earlier + rs, []);
    assert EncodeAll(crc, earlier) + [] + EncodeAll(crc, rs) == EncodeAll(crc, earlier + rs) + [];
  }

  // Behind any tail some record is lost: one whose length field differs from the tail's.
  lemma LostBehind(crc: Checksum, earlier: seq<Record>, tail: Bytes) returns (rs: seq<Record>)
    requires AllFit(earlier) && tail != []
    ensures AllFit(rs) && Parse(crc, EncodeAll(crc, earlier) + tail + EncodeAll(crc, rs)) != Ok(earlier + rs)
  {
    assert EncodeAll(crc, earlier) + tail + EncodeAll(crc, []) == EncodeAll(crc, earlier) + tail;
    assert earlier + [] == earlier;
    if Parse(crc, EncodeAll(crc, earlier) + tail) == Ok(earlier) {
      TailIsTorn(crc, earlier, tail);
      rs := [Record(OP_PUT, if tail[..4] == BigEndian(13) then [0] else [], [])];
      BigEndianRoundTrip(13);
      BigEndianRoundTrip(14);
      LengthTells(crc, earlier, tail, rs[0]);
    } else {
      rs := [];
    }
  }

  lemma TailIsTorn(crc: Checksum, earlier: seq<Record>, tail: Bytes)
    requires Parse(crc, EncodeAll(crc, earlier) + tail) == Ok(earlier)
    ensures Torn(tail)
  {
    ParseExactly(crc, EncodeAll(crc, earlier) + tail, earlier);
    assert (EncodeAll(crc, earlier) + tail)[|EncodeAll(crc, earlier)|..] == tail;
  }

  lemma LengthTells(crc: Checksum, earlier: seq<Record>, tail: Bytes, r: Record)
    requires Fits(r) && |tail| >= 4 && tail[..4] != BigEndian(|Payload(crc, r)|)
    ensures Parse(crc, EncodeAll(crc, earlier) + tail + EncodeAll(crc, [r])) != Ok(earlier + [r])
  {
    var front, file := EncodeAll(crc, earlier), EncodeAll(crc, earlier) + tail + EncodeAll(crc, [r]);
    assert file[|front|..|front| + 4] == tail[..4];
    EncodeAllAppends(crc, earlier, [r]);
    LengthBehind(crc, front, r);
    if Parse(crc, file) == Ok(earlier + [r]) {
      ParseExactly(crc, file, earlier + [r]);
    }
  }

  lemma LengthBehind(crc: Checksum, front: Bytes, r: Record)
    requires Fits(r)
    ensures var file := front + EncodeAll(crc, [r]);
      |file| >= |front| + 4 && file[|front|..|front| + 4] == BigEndian(|Payload(crc, r)|)
  {
    EncodeIs(crc, r);
    assert EncodeAll(crc, [r]) == Encode(crc, r) + EncodeAll(crc, []) == Encode(crc, r);
  }

  // ----- Cutting a file -----

  // Byte `cut` of the encoded records: how many records are whole before it, and how
  // far into the next one it lies.
  function WholeBefore(crc: Checksum, rs: seq<Record>, cut: nat): (k: nat)
    ensures k <= |rs|
  {
    if |rs| == 0 || cut < |Encode(crc, rs[0])| then 0
    else 1 + WholeBefore(crc, rs[1..], cut - |Encode(crc, rs[0])|)
  }

  // The bytes before the cut: k whole records and off bytes of the next.
  predicate SplitsAt(crc: Checksum, rs: seq<Record>, cut: nat, k: nat) {
    && k <= |rs| && cut <= |EncodeAll(crc, rs)| && |EncodeAll(crc, rs[..k])| <= cut
    && var off := cut - |EncodeAll(crc, rs[..k])|;
    && (k == |rs| ==> off == 0)
    && (k < |rs| ==> off < |Encode(crc, rs[k])|)
    && EncodeAll(crc, rs)[..cut] == EncodeAll(crc, rs[..k]) + (if k < |rs| then Encode(crc, rs[k])[..off] else [])
  }

  lemma {:induction false} CutSplits(crc: Checksum, rs: seq<Record>, cut: nat)
    requires cut <= |EncodeAll(crc, rs)|
    ensures SplitsAt(crc, rs, cut, WholeBefore(crc, rs, cut))
  {
    if |rs| == 0 {
      CutsNothing(crc, rs);
    } else if cut < |Encode(crc, rs[0])| {
      CutsFirst(crc, rs, cut);
    } else {
      var cut' := cut - |Encode(crc, rs[0])|;
      assert cut' <= |EncodeAll(crc, rs[1..])|;
      CutSplits(crc, rs[1..], cut');
      CutSplitsOneMore(crc, rs, cut, WholeBefore(crc, rs[1..], cut'));
    }
  }

  lemma CutsNothing(crc: Checksum, rs: seq<Record>)
    requires |rs| == 0
    ensures SplitsAt(crc, rs, 0, 0)
  {
  }

  lemma CutsFirst(crc: Checksum, rs: seq<Record>, cut: nat)
    requires |rs| > 0 && cut < |Encode(crc, rs[0])|
    ensures SplitsAt(crc, rs, cut, 0)
  {
    var first, others := Encode(crc, rs[0]), EncodeAll(crc, rs[1..]);
    assert rs[..0] == [];
    assert (first + others)[..cut] == first[..cut];
  }

  lemma CutSplitsOneMore(crc: Checksum, rs: seq<Record>, cut: nat, k: nat)
    requires |rs| > 0 && |Encode(crc, rs[0])| <= cut <= |EncodeAll(crc, rs)|
    requires SplitsAt(crc, rs[1..], cut - |Encode(crc, rs[0])|, k)
    ensures SplitsAt(crc, rs, cut, k + 1)
  {
    var first, others, cut' := Encode(crc, rs[0]), rs[1..], cut - |Encode(crc, rs[0])|;
    FrontUnfolds(crc, rs, k);
    var front := EncodeAll(crc, others[..k]);
    var piece := if k < |others| then Encode(crc, others[k])[..cut' - |front|] else [];
    FrontAndPiece(first, EncodeAll(crc, others), cut', front, piece);
  }

  lemma TakeBehind(a: Bytes, b: Bytes, n: nat)
    requires n <= |b|
    ensures (a + b)[..|a| + n] == a + b[..n]
  {
  }

  lemma FrontAndPiece(first: Bytes, others: Bytes, n: nat, front: Bytes, piece: Bytes)
    requires n <= |others| && others[..n] == front + piece
    ensures (first + others)[..|first| + n] == first + front + piece
  {
    TakeBehind(first, others, n);
    assert first + (front + piece) == first + front + piece;
  }

  lemma FrontUnfolds(crc: Checksum, rs: seq<Record>, k: nat)
    requires k < |rs|
    ensures EncodeAll(crc, rs[..k + 1]) == Encode(crc, rs[0]) + EncodeAll(crc, rs[1..][..k])
  {
    assert rs[..k + 1][0] == rs[0] && rs[..k + 1][1..] == rs[1..][..k];
  }

  // The piece of one record before the cut: 1 to 4 bytes are an error, none or 5 and
  // more are not.
  lemma ParsePiece(crc: Checksum, r: Record, off: nat)
    requires Fits(r) && off < |Encode(crc, r)|
    ensures Parse(crc, Encode(crc, r)[..off]).Err? <==> 1 <= off <= 4
    ensures !(1 <= off <= 4) ==> Parse(crc, Encode(crc, r)[..off]) == Ok([])
  {
    var piece, payload := Encode(crc, r)[..off], Payload(crc, r);
    if off >= 4 {
      PieceLength(crc, r, off);
      if off >= 5 {
        ParseTorn(crc, piece);
      }
    }
  }

  lemma PieceLength(crc: Checksum, r: Record, off: nat)
    requires Fits(r) && 4 <= off <= |Encode(crc, r)|
    ensures FromBigEndian(Encode(crc, r)[..off][..4]) == |Payload(crc, r)|
  {
    var n: u32 := |Payload(crc, r)|;
    EncodeIs(crc, r);
    PrefixOfPiece(BigEndian(n), Payload(crc, r), off);
    BigEndianRoundTrip(n);
  }

  lemma PrefixOfPiece(a: Bytes, b: Bytes, off: nat)
    requires |a| <= off <= |a + b|
    ensures (a + b)[..off][..|a|] == a
  {
  }

  // Torn-tail classification, for every cut of every log.
  lemma ParseCut(crc: Checksum, rs: seq<Record>, cut: nat)
    requires AllFit(rs) && cut <= |EncodeAll(crc, rs)|
    ensures var k := WholeBefore(crc, rs, cut);
      var off := cut - |EncodeAll(crc, rs[..k])|;
      && (Parse(crc, EncodeAll(crc, rs)[..cut]).Err? <==> 1 <= off <= 4)
      && (!(1 <= off <= 4) ==> Parse(crc, EncodeAll(crc, rs)[..cut]) == Ok(rs[..k]))
  {
    var k := WholeBefore(crc, rs, cut);
    CutSplits(crc, rs, cut);
    ParseSplit(crc, rs, cut, k);
    if k < |rs| { ParsePiece(crc, rs[k], cut - |EncodeAll(crc, rs[..k])|); }
  }

  // The whole records before the cut, and what replay makes of the piece behind them.
  lemma ParseSplit(crc: Checksum, rs: seq<Record>, cut: nat, k: nat)
    requires AllFit(rs) && SplitsAt(crc, rs, cut, k)
    ensures var piece := if k < |rs| then Encode(crc, rs[k])[..cut - |EncodeAll(crc, rs[..k])|] else [];
      Parse(crc, EncodeAll(crc, rs)[..cut]) == Prepend(rs[..k], Parse(crc, piece))
      && (Parse(crc, piece) == Ok([]) ==> Prepend(rs[..k], Parse(crc, piece)) == Ok(rs[..k]))
  {
    var piece := if k < |rs| then Encode(crc, rs[k])[..cut - |EncodeAll(crc, rs[..k])|] else [];
    ParseRecords(crc, rs[..k], piece);
    assert rs[..k] + [] == rs[..k];
  }

  lemma {:induction false} EncodeAllAppends(crc: Checksum, a: seq<Record>, b: seq<Record>)
    ensures EncodeAll(crc, a + b) == EncodeAll(crc, a) + EncodeAll(crc, b)
  {
    if |a| == 0 {
      assert a + b == b;
    } else {
      assert (a + b)[1..] == a[1..] + b;
      EncodeAllAppends(crc, a[1..], b);
    }
  }
}
