/** Extended header records: "LENGTH KEY=VALUE\n", where LENGTH counts the whole record,
    its own digits included (pax, "pax Extended Header"). */
module PaxRecords {
  import opened Bytes
  import opened Options

  datatype Record = Record(key: seq<Byte>, value: seq<Byte>) {
    /** What a record can carry. */
    predicate Valid() {
      key != [] && Find(key, EQUALS) == |key|
    }
  }

  // ---- The reader ----

  /** The length field is decoded as ASCII, which drops the high bit of every byte. */
  function Ascii(s: seq<Byte>): (t: seq<Byte>)
    ensures |t| == |s|
  {
    seq(|s|, i requires 0 <= i < |s| => s[i] % 128)
  }

  /** A positive decimal number without leading zeros, within the safe integers. */
  function LengthField(s: seq<Byte>): Option<nat> {
    var text := Ascii(s);
    if text == [] || !Digits(text) || text[0] == 48 then None
    else if DecimalValue(text) > MAX_SAFE_INTEGER then None
    else Some(DecimalValue(text))
  }

  /** `bytes` is exactly one record: its length field says how long it is. */
  predicate IsRecord(bytes: seq<Byte>, r: Record) {
    var space := Find(bytes, SPACE);
    && space < |bytes|
    && LengthField(bytes[..space]) == Some(|bytes|)
    && r.Valid()
    && bytes[space + 1..] == r.key + [EQUALS] + r.value + [NEWLINE]
  }

  /** The record at the start of a payload, and its length. */
  function Head(payload: seq<Byte>): (r: Option<(nat, Record)>)
    ensures r.Some? ==> 0 < r.value.0 <= |payload|
  {
    var space := Find(payload, SPACE);
    if space == |payload| then None else
    var length := LengthField(payload[..space]);
    if length.None? || length.value > |payload| || length.value <= space + 1 then None else
    var record := payload[space + 1..length.value];
    if record[|record| - 1] != NEWLINE then None else
    var body := record[..|record| - 1];
    var equals := Find(body, EQUALS);
    if equals == 0 || equals == |body| then None
    else Some((length.value, Record(body[..equals], body[equals + 1..])))
  }

  function Records(payload: seq<Byte>): Option<seq<Record>>
    decreases |payload|
  {
    if payload == [] then Some([])
    else
      var head := Head(payload);
      if head.None? then None
      else
        var rest := Records(payload[head.value.0..]);
        if rest.None? then None else Some([head.value.1] + rest.value)
  }

  /** Later records win. */
  function Meaning(records: seq<Record>): map<seq<Byte>, seq<Byte>> {
    if records == [] then map[]
    else
      var last := records[|records| - 1];
      Meaning(records[..|records| - 1])[last.key := last.value]
  }

  // ---- What is accepted ----

  function Concat(parts: seq<seq<Byte>>): seq<Byte> {
    if parts == [] then [] else parts[0] + Concat(parts[1..])
  }

  ghost predicate Frames(parts: seq<seq<Byte>>, records: seq<Record>) {
    |parts| == |records| && forall i :: 0 <= i < |parts| ==> IsRecord(parts[i], records[i])
  }

  lemma HeadOfRecord(bytes: seq<Byte>, r: Record, rest: seq<Byte>)
    requires IsRecord(bytes, r)
    ensures Head(bytes + rest) == Some((|bytes|, r))
  {
    var payload := bytes + rest;
    var space := Find(bytes, SPACE);
    FindAt(payload, SPACE, space);
    assert payload[..space] == bytes[..space];
    var record := payload[space + 1..|bytes|];
    assert record == bytes[space + 1..] == r.key + [EQUALS] + r.value + [NEWLINE];
    var body := record[..|record| - 1];
    assert body == r.key + [EQUALS] + r.value;
    FindAt(body, EQUALS, |r.key|);
    assert body[..|r.key|] == r.key && body[|r.key| + 1..] == r.value;
  }

  lemma HeadIsRecord(payload: seq<Byte>)
    requires Head(payload).Some?
    ensures IsRecord(payload[..Head(payload).value.0], Head(payload).value.1)
  {
    var (length, r) := Head(payload).value;
    var bytes := payload[..length];
    var space := Find(payload, SPACE);
    FindAt(bytes, SPACE, space);
    assert bytes[..space] == payload[..space];
    var record := payload[space + 1..length];
    assert bytes[space + 1..] == record;
    var body := record[..|record| - 1];
    var equals := Find(body, EQUALS);
    FindAt(r.key, EQUALS, |r.key|);
    assert body == r.key + [EQUALS] + r.value;
    assert record == body + [NEWLINE];
  }

  /** Every concatenation of records is accepted and reads as those records. */
  lemma {:induction false} RecordsOfFrames(parts: seq<seq<Byte>>, records: seq<Record>)
    requires Frames(parts, records)
    ensures Records(Concat(parts)) == Some(records)
    decreases |parts|
  {
    hide Head, IsRecord;
    if parts != [] {
      HeadOfRecord(parts[0], records[0], Concat(parts[1..]));
      assert Concat(parts)[|parts[0]|..] == Concat(parts[1..]);
      RecordsOfFrames(parts[1..], records[1..]);
      assert records == [records[0]] + records[1..];
    }
  }

  /** Every accepted payload is a concatenation of records, each as long as it declares. */
  lemma {:induction false} FramesOfRecords(payload: seq<Byte>) returns (parts: seq<seq<Byte>>)
    requires Records(payload).Some?
    ensures Frames(parts, Records(payload).value) && Concat(parts) == payload
    decreases |payload|
  {
    hide Head, IsRecord;
    if payload == [] {
      parts := [];
    } else {
      var length := Head(payload).value.0;
      HeadIsRecord(payload);
      var rest := FramesOfRecords(payload[length..]);
      parts := [payload[..length]] + rest;
      assert parts[1..] == rest;
      assert payload == payload[..length] + payload[length..];
    }
  }

  // ---- The writer ----

  /** The number of digits d for which a record with `rest` other bytes and d digits is
      rest + d bytes long: the self-describing length always exists. */
  function LengthDigits(rest: nat): (d: nat)
    ensures 0 < d == |Decimal(rest + d)|
  {
    DigitsFrom(rest, 1)
  }

  function DigitsFrom(rest: nat, d: nat): (r: nat)
    requires 0 < d <= |Decimal(rest + d)|
    ensures d <= r == |Decimal(rest + r)|
    decreases rest + 10 - 9 * d
  {
    DecimalShort(rest + d);
    DecimalStep(rest + d);
    if |Decimal(rest + d)| == d then d else DigitsFrom(rest, d + 1)
  }

  function Body(r: Record): seq<Byte> {
    r.key + [EQUALS] + r.value + [NEWLINE]
  }

  function EncodeRecord(r: Record): seq<Byte> {
    var rest := 1 + |Body(r)|;
    Decimal(rest + LengthDigits(rest)) + [SPACE] + Body(r)
  }

  function Encode(records: seq<Record>): seq<Byte> {
    if records == [] then [] else EncodeRecord(records[0]) + Encode(records[1..])
  }

  lemma LengthReadsBack(n: nat)
    requires 0 < n <= MAX_SAFE_INTEGER
    ensures LengthField(Decimal(n)) == Some(n)
    ensures forall i :: 0 <= i < |Decimal(n)| ==> Decimal(n)[i] != SPACE
  {
    hide Decimal, DecimalValue;
    DecimalReadsBack(n);
    assert Ascii(Decimal(n)) == Decimal(n);
  }

  lemma EncodedIsRecord(r: Record)
    requires r.Valid() && |EncodeRecord(r)| <= MAX_SAFE_INTEGER
    ensures IsRecord(EncodeRecord(r), r)
  {
    hide Decimal, LengthDigits, LengthField, Find;
    var rest := 1 + |Body(r)|;
    var n := rest + LengthDigits(rest);
    var bytes := EncodeRecord(r);
    assert |bytes| == n;
    LengthReadsBack(n);
    assert bytes == Decimal(n) + ([SPACE] + Body(r));
    FindAt(bytes, SPACE, |Decimal(n)|);
    assert bytes[..|Decimal(n)|] == Decimal(n);
    assert bytes[|Decimal(n)| + 1..] == Body(r);
  }

  /** Writing any records and reading them back gives the same records; as a map, later
      duplicates win. */
  lemma {:induction false} RoundTrip(records: seq<Record>)
    requires forall i :: 0 <= i < |records| ==> records[i].Valid()
    requires |Encode(records)| <= MAX_SAFE_INTEGER
    ensures Records(Encode(records)) == Some(records)
  {
    hide EncodeRecord, IsRecord, Head;
    if records != [] {
      EncodedIsRecord(records[0]);
      HeadOfRecord(EncodeRecord(records[0]), records[0], Encode(records[1..]));
      assert Encode(records)[|EncodeRecord(records[0])|..] == Encode(records[1..]);
      RoundTrip(records[1..]);
      assert records == [records[0]] + records[1..];
    }
  }

  /** The last record of a key gives its value. */
  lemma {:induction false} LastWins(records: seq<Record>, i: nat)
    requires i < |records|
    requires forall j :: i < j < |records| ==> records[j].key != records[i].key
    ensures records[i].key in Meaning(records) && Meaning(records)[records[i].key] == records[i].value
  {
    if i < |records| - 1 {
      LastWins(records[..|records| - 1], i);
    }
  }

  // ---- parsePaxRecords ----

  lemma {:induction false} MeaningPush(records: seq<Record>, r: Record)
    ensures Meaning(records + [r]) == Meaning(records)[r.key := r.value]
  {
    assert (records + [r])[..|records + [r]| - 1] == records;
  }

  method ParsePaxRecords(payload: seq<Byte>) returns (r: Option<map<seq<Byte>, seq<Byte>>>)
    ensures r.Some? <==> Records(payload).Some?
    ensures r.Some? ==> r.value == Meaning(Records(payload).value)
  {
    hide Head;
    var records: map<seq<Byte>, seq<Byte>> := map[];
    ghost var done: seq<Record> := [];
    ghost var all := Records(payload);
    assert payload[0..] == payload;
    assert all.Some? ==> done + all.value == all.value;
    var offset := 0;
    while offset < |payload|
      invariant 0 <= offset <= |payload|
      invariant records == Meaning(done)
      invariant match Records(payload[offset..])
                case None => all.None?
                case Some(rest) => all == Some(done + rest)
    {
      var remaining := payload[offset..];
      var head := Head(remaining);
      if head.None? {
        return None;
      }
      var (length, record) := head.value;
      assert remaining[length..] == payload[offset + length..];
      MeaningPush(done, record);
      ghost var rest := Records(payload[offset + length..]);
      if rest.Some? {
        assert done + ([record] + rest.value) == (done + [record]) + rest.value;
      }
      done := done + [record];
      records := records[record.key := record.value];
      offset := offset + length;
    }
    assert payload[offset..] == [];
    assert done + [] == done;
    r := Some(records);
  }
}
