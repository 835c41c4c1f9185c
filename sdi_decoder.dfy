/** The older SDI uplink decoder (paysdi.js, V0.1). On fPort 1 byte 0 is
    the header; then records follow, each a channel byte and its data:
    channels 0..89 carry a 4-byte binary32 value, 90..99 a 2-byte
    housekeeping word, and any higher channel byte stands alone. Each
    record writes one key of the result object (`chan_<n>` or `hk_<n>`),
    so a channel sent twice keeps its last value.

    The decoder is parameterised by the ErrnoRule its error frames are
    read with: AsWritten is the decoder as it stands, Intended the one with
    the error number read from bytes 2 and 3. */
module SdiDecoder {
  import opened Wrappers
  import opened Words
  import opened LtxHeader
  import opened LtxTables
  import opened SdiValues

  /** The reason codes of this decoder: 1 is an automatic transmission, 5
      a manual one, anything else is shown as is. */
  function SdiReason(code: int): Reason
  {
    if code == 1 then Auto else if code == 5 then Manual else Other(code)
  }

  function SdiReasonCode(r: Reason): int
  {
    match r
    case Auto => 1
    case Manual => 5
    case Other(c) => c
  }

  /** Every reason code is given back by its reason, and every reason that
      does not wrap a named code is given back by its code. */
  lemma SdiReasonRoundTrip(code: int, r: Reason)
    ensures SdiReasonCode(SdiReason(code)) == code
    ensures (r.Other? ==> r.code !in {1, 5}) ==> SdiReason(SdiReasonCode(r)) == r
  {
  }

  /** The header: the shared flag bits and the SDI reason codes. */
  function SdiHeader(flags: byte): (h: Header)
    ensures h.reason == SdiReason(flags % 16)
  {
    Flags(flags, SdiReason(flags % 16))
  }

  /** The two generations read the same flag bits and differ only in the
      reason codes: 2 and 3 are Auto and Manual for LTX, 1 and 5 for SDI. */
  lemma HeadersAgreeOnFlags(flags: byte)
    ensures SdiHeader(flags).(reason := Auto) == ParseHeader(flags).(reason := Auto)
    ensures SdiHeader(flags).reason == Auto <==> flags % 16 == 1
    ensures ParseHeader(flags).reason == Auto <==> flags % 16 == 2
  {
  }

  /** The key a record writes: `chan_<n>` or `hk_<n>`. */
  datatype Key = ChanKey(n: nat) | HkKey(n: nat)

  datatype Field = StdField(v: SdiValue) | HkField(h: HkValue)

  datatype Record = Record(key: Key, field: Field)

  /** The value bytes of a standard record: `indata.slice(c, c + 4)`,
      which stops at the end of the frame. */
  function Slice4(b: seq<byte>, c: nat): (s: seq<byte>)
    requires c <= |b|
    ensures |s| <= 4
  {
    if c + 4 <= |b| then b[c..c + 4] else b[c..]
  }

  /** The bytes a record at c takes: the channel byte and 4, 2 or no data
      bytes, whether or not they are present. */
  function RecordSize(ch: byte): nat
  {
    if ch <= 89 then 5 else if ch <= 99 then 3 else 1
  }

  /** The records from cursor c on, in frame order. A channel byte above
      99 writes nothing. Missing data bytes read as 0. */
  function Records(rule: ErrnoRule, b: seq<byte>, c: nat): (rs: seq<Record>)
    decreases |b| - c
  {
    if c >= |b| then []
    else
      var ch := b[c];
      var next := c + RecordSize(ch);
      if ch <= 89 then [Record(ChanKey(ch), StdField(StdValue(rule, Slice4(b, c + 1))))] + Records(rule, b, next)
      else if ch <= 99 then [Record(HkKey(ch), HkField(Value2HK(ch, At(b, c + 1) * 0x100 + At(b, c + 2))))] + Records(rule, b, next)
      else Records(rule, b, next)
  }

  /** What every record holds: a standard key for channels 0..89 with a
      standard value, a housekeeping key for channels 90..99 with a
      housekeeping value. */
  predicate WellKeyed(r: Record)
  {
    match r.key
    case ChanKey(n) => n <= 89 && r.field.StdField?
    case HkKey(n) => 90 <= n <= 99 && r.field.HkField?
  }

  lemma {:induction false} RecordsWellKeyed(rule: ErrnoRule, b: seq<byte>, c: nat)
    ensures forall i :: 0 <= i < |Records(rule, b, c)| ==> WellKeyed(Records(rule, b, c)[i])
    decreases |b| - c
  {
    if c < |b| {
      RecordsWellKeyed(rule, b, c + RecordSize(b[c]));
    }
  }

  /** Each record takes at least one byte, so there are at most as many
      records as bytes after the cursor. */
  lemma {:induction false} RecordsCount(rule: ErrnoRule, b: seq<byte>, c: nat)
    ensures |Records(rule, b, c)| <= if c < |b| then |b| - c else 0
    decreases |b| - c
  {
    if c < |b| {
      RecordsCount(rule, b, c + RecordSize(b[c]));
    }
  }

  /** A record cut short at the end of the frame reads as if the missing
      bytes were zeros. */
  lemma TruncatedRecord(rule: ErrnoRule, b: seq<byte>, c: nat)
    requires c < |b| && c + RecordSize(b[c]) > |b|
    ensures var p := b + Zeros(c + RecordSize(b[c]) - |b|);
      Records(rule, b, c) == Records(rule, p, c)
  {
    var k := c + RecordSize(b[c]) - |b|;
    var p := b + Zeros(k);
    assert p[c] == b[c];
    assert Records(rule, b, c + RecordSize(b[c])) == [] && Records(rule, p, c + RecordSize(b[c])) == [];
    assert At(b, c + 1) == At(p, c + 1) && At(b, c + 2) == At(p, c + 2);
    if b[c] <= 89 {
      ZeroPadding(Slice4(b, c + 1));
      assert Slice4(b, c + 1) + Zeros(4 - |Slice4(b, c + 1)|) == Slice4(p, c + 1);
    }
  }

  /** The decoded object: the header, and the keys the records wrote. */
  datatype SdiFrame = SdiFrame(header: Header, fields: map<Key, Field>)

  /** `{error: "fPort<n> unknown"}` or the decoded object. */
  datatype SdiResult = PortError(port: int) | Data(frame: SdiFrame)

  /** The records written into the fields in order: later writes of a key
      replace earlier ones. */
  function Store(fields: map<Key, Field>, rs: seq<Record>): map<Key, Field>
    decreases |rs|
  {
    if rs == [] then fields else Store(fields[rs[0].key := rs[0].field], rs[1..])
  }

  /** The last write of key k among the records, as an independent
      reference: search from the end. */
  function LastWrite(rs: seq<Record>, k: Key): Option<Field>
    decreases |rs|
  {
    if rs == [] then None
    else if rs[|rs| - 1].key == k then Some(rs[|rs| - 1].field)
    else LastWrite(rs[..|rs| - 1], k)
  }

  /** Searching from the end, seen from the front: the first record counts
      only when no later record writes the key. */
  lemma {:induction false} LastWriteFront(rs: seq<Record>, k: Key)
    requires rs != []
    ensures LastWrite(rs, k)
         == if LastWrite(rs[1..], k).Some? then LastWrite(rs[1..], k)
            else if rs[0].key == k then Some(rs[0].field) else None
    decreases |rs|
  {
    if |rs| > 1 {
      var init := rs[..|rs| - 1];
      assert init[1..] == rs[1..][..|rs[1..]| - 1];
      LastWriteFront(init, k);
    }
  }

  /** Last write wins: after the records are stored, a key holds the field
      of its last record, and keys no record writes keep their old field. */
  lemma {:induction false} StoreLastWrite(fields: map<Key, Field>, rs: seq<Record>, k: Key)
    ensures LastWrite(rs, k).Some? ==> k in Store(fields, rs) && Store(fields, rs)[k] == LastWrite(rs, k).value
    ensures LastWrite(rs, k).None? ==> (k in Store(fields, rs) <==> k in fields)
    ensures LastWrite(rs, k).None? && k in fields ==> Store(fields, rs)[k] == fields[k]
    decreases |rs|
  {
    if rs != [] {
      StoreLastWrite(fields[rs[0].key := rs[0].field], rs[1..], k);
      LastWriteFront(rs, k);
    }
  }

  /** LastWrite finds the last record with the key: an index holding it,
      with no later record writing the key; and None means no record does. */
  lemma {:induction false} LastWriteIsLast(rs: seq<Record>, k: Key)
    ensures LastWrite(rs, k).Some? ==>
      exists i :: 0 <= i < |rs| && rs[i] == Record(k, LastWrite(rs, k).value)
                  && forall j :: i < j < |rs| ==> rs[j].key != k
    ensures LastWrite(rs, k).None? <==> forall i :: 0 <= i < |rs| ==> rs[i].key != k
    decreases |rs|
  {
    if rs != [] {
      var init := rs[..|rs| - 1];
      LastWriteIsLast(init, k);
      if rs[|rs| - 1].key == k {
        assert rs[|rs| - 1] == Record(k, LastWrite(rs, k).value);
      } else if LastWrite(init, k).Some? {
        var i :| 0 <= i < |init| && init[i] == Record(k, LastWrite(init, k).value)
                 && forall j :: i < j < |init| ==> init[j].key != k;
        assert rs[i] == init[i];
      } else {
        assert forall i :: 0 <= i < |init| ==> rs[i] == init[i];
      }
    }
  }

  /** What decodeUplink returns for a frame and a port. On fPort 1 an empty
      frame still decodes: its header byte reads as 0. */
  function UplinkSpec(rule: ErrnoRule, bytes: seq<byte>, port: int): (r: SdiResult)
    ensures r.PortError? <==> port != 1
    ensures r.PortError? ==> r.port == port
  {
    if port != 1 then PortError(port)
    else Data(SdiFrame(SdiHeader(At(bytes, 0)), Store(map[], Records(rule, bytes, 1))))
  }

  /** The fields of a decoded frame: a key is present exactly when some
      record writes it, and it holds its last record's field. */
  lemma DecodedFields(rule: ErrnoRule, bytes: seq<byte>, k: Key)
    ensures var fields := UplinkSpec(rule, bytes, 1).frame.fields;
      var rs := Records(rule, bytes, 1);
      (k in fields <==> exists i :: 0 <= i < |rs| && rs[i].key == k)
      && (k in fields ==> exists i :: 0 <= i < |rs| && rs[i] == Record(k, fields[k])
                                      && forall j :: i < j < |rs| ==> rs[j].key != k)
  {
    var rs := Records(rule, bytes, 1);
    var fields := Store(map[], rs);
    assert UplinkSpec(rule, bytes, 1).frame.fields == fields;
    StoreLastWrite(map[], rs, k);
    LastWriteIsLast(rs, k);
    if LastWrite(rs, k).Some? {
      var i :| 0 <= i < |rs| && rs[i] == Record(k, LastWrite(rs, k).value)
               && forall j :: i < j < |rs| ==> rs[j].key != k;
      assert rs[i].key == k;
    } else {
      assert k !in fields;
    }
  }

  /** decodeUplink: on fPort 1 parse the header, then read records while
      the cursor is inside the frame, writing one key per record. With
      AsWritten it is the decoder as it stands. */
  method DecodeUplink(rule: ErrnoRule, bytes: seq<byte>, fPort: int) returns (r: SdiResult)
    ensures r == UplinkSpec(rule, bytes, fPort)
  {
    if fPort != 1 {
      return PortError(fPort);
    }
    var cursor: nat := 0;
    var flags := At(bytes, cursor);
    cursor := cursor + 1;
    var header := SdiHeader(flags);
    var fields: map<Key, Field> := map[];
    ghost var goal := Store(map[], Records(rule, bytes, 1));
    while cursor < |bytes|
      invariant Store(fields, Records(rule, bytes, cursor)) == goal
      decreases |bytes| - cursor
    {
      var channel := bytes[cursor];
      cursor := cursor + 1;
      if channel <= 89 {
        var floatBytes := if cursor + 4 <= |bytes| then bytes[cursor..cursor + 4] else bytes[cursor..];
        var fdata := StdValue(rule, floatBytes);
        cursor := cursor + 4;
        fields := fields[ChanKey(channel) := StdField(fdata)];
      } else if channel <= 99 {
        var hkdata := Value2HK(channel, At(bytes, cursor) * 0x100 + At(bytes, cursor + 1));
        cursor := cursor + 2;
        fields := fields[HkKey(channel) := HkField(hkdata)];
      }
    }
    return Data(SdiFrame(header, fields));
  }

  /** A complete standard record at c. */
  lemma StdRecordAt(rule: ErrnoRule, b: seq<byte>, c: nat)
    requires c + 5 <= |b| && b[c] <= 89
    ensures Records(rule, b, c)
         == [Record(ChanKey(b[c]), StdField(StdValue(rule, b[c + 1..c + 5])))] + Records(rule, b, c + 5)
  {
  }

  /** A complete housekeeping record at c. */
  lemma HkRecordAt(rule: ErrnoRule, b: seq<byte>, c: nat)
    requires c + 3 <= |b| && 90 <= b[c] <= 99
    ensures Records(rule, b, c)
         == [Record(HkKey(b[c]), HkField(Value2HK(b[c], At(b, c + 1) * 0x100 + At(b, c + 2))))] + Records(rule, b, c + 3)
  {
  }

  /** The decoder's first sample, 11 00 419147A4: a measurement sent
      automatically, with one value (18.16) on channel 0. */
  lemma FirstSample(rule: ErrnoRule, b: seq<byte>)
    requires b == [0x11, 0x00, 0x41, 0x91, 0x47, 0xA4]
    ensures UplinkSpec(rule, b, 1)
         == Data(SdiFrame(Header(false, NoAlarm, true, Auto), map[ChanKey(0) := StdField(Float(0x4191_47A4))]))
  {
    StdRecordAt(rule, b, 1);
    assert b[2..6] == [0x41, 0x91, 0x47, 0xA4];
    assert Word32([0x41, 0x91, 0x47, 0xA4]) == 0x4191_47A4;
    assert Records(rule, b, 6) == [];
    var r := Record(ChanKey(0), StdField(Float(0x4191_47A4)));
    assert Records(rule, b, 1) == [r];
    StoreOne(map[], r);
    assert SdiHeader(0x11) == Header(false, NoAlarm, true, Auto);
  }

  /** An error frame on channel 0, 11 00 FD000002: the decoder as it stands
      reports "Err0", the intended one NoReply. */
  lemma ErrorRecord(b: seq<byte>)
    requires b == [0x11, 0x00, 0xFD, 0x00, 0x00, 0x02]
    ensures UplinkSpec(AsWritten, b, 1).frame.fields == map[ChanKey(0) := StdField(Msg(Unknown(0)))]
    ensures UplinkSpec(Intended, b, 1).frame.fields == map[ChanKey(0) := StdField(Msg(NoReply))]
  {
    assert b[2..6] == [0xFD, 0x00, 0x00, 0x02];
    NoReplyFrameAsWritten();
    StdRecordAt(AsWritten, b, 1);
    StdRecordAt(Intended, b, 1);
    assert Records(AsWritten, b, 6) == [] && Records(Intended, b, 6) == [];
    StoreOne(map[], Record(ChanKey(0), StdField(Msg(Unknown(0)))));
    StoreOne(map[], Record(ChanKey(0), StdField(Msg(NoReply))));
  }

  lemma StoreOne(fields: map<Key, Field>, r: Record)
    ensures Store(fields, [r]) == fields[r.key := r.field]
  {
    assert [r][1..] == [];
  }

  /** The decoder's second sample, 95 00 419028F6 5A0D7B 5B00CD 5C01CF
      5D0000 5E26F9: reset and manual measurement, one value on channel 0
      and the five housekeeping channels 3.451 V, 20.5 °C, 46.3 %rH,
      0 mAh and 997.7 mBar. */
  lemma SecondSample(rule: ErrnoRule, b: seq<byte>)
    requires b == [0x95, 0x00, 0x41, 0x90, 0x28, 0xF6, 0x5A, 0x0D, 0x7B, 0x5B, 0x00, 0xCD,
                   0x5C, 0x01, 0xCF, 0x5D, 0x00, 0x00, 0x5E, 0x26, 0xF9]
    ensures UplinkSpec(rule, b, 1) == Data(SdiFrame(Header(true, NoAlarm, true, Manual), SecondFields()))
  {
    assert b[0] == 0x95 && b[1] == 0x00 && b[2..6] == [0x41, 0x90, 0x28, 0xF6];
    assert b[6] == 0x5A && b[7] == 0x0D && b[8] == 0x7B && b[9] == 0x5B && b[10] == 0x00 && b[11] == 0xCD;
    assert b[12] == 0x5C && b[13] == 0x01 && b[14] == 0xCF && b[15] == 0x5D && b[16] == 0x00 && b[17] == 0x00;
    assert b[18] == 0x5E && b[19] == 0x26 && b[20] == 0xF9;
    var r0 := SecondStd(rule, b);
    var hs := SecondHk(rule, b);
    assert Records(rule, b, 1) == [r0] + hs;
    SecondStore(r0, hs);
    assert SdiHeader(0x95) == Header(true, NoAlarm, true, Manual);
  }

  /** The keys the second sample writes: the value on channel 0 and the
      housekeeping numbers with their scales and descriptions. */
  function SecondFields(): map<Key, Field>
  {
    map[ChanKey(0) := StdField(Float(0x4190_28F6)),
        HkKey(90) := HkField(HkValue(3451, 1000, BatVolts)),
        HkKey(91) := HkField(HkValue(205, 10, IntTemp)),
        HkKey(92) := HkField(HkValue(463, 10, IntHum)),
        HkKey(93) := HkField(HkValue(0, 1, UsedCharge)),
        HkKey(94) := HkField(HkValue(9977, 10, Baro))]
  }

  lemma SecondStore(r0: Record, hs: seq<Record>)
    requires r0 == Record(ChanKey(0), StdField(Float(0x4190_28F6)))
    requires hs == [Record(HkKey(90), HkField(HkValue(3451, 1000, BatVolts))),
                    Record(HkKey(91), HkField(HkValue(205, 10, IntTemp))),
                    Record(HkKey(92), HkField(HkValue(463, 10, IntHum))),
                    Record(HkKey(93), HkField(HkValue(0, 1, UsedCharge))),
                    Record(HkKey(94), HkField(HkValue(9977, 10, Baro)))]
    ensures Store(map[], [r0] + hs) == SecondFields()
  {
    var rs := [r0] + hs;
    StoreStep(map[], rs);
    StoreStep(map[][rs[0].key := rs[0].field], rs[1..]);
    assert rs[1..][1..] == hs[1..];
    var f2 := map[][rs[0].key := rs[0].field][hs[0].key := hs[0].field];
    StoreStep(f2, hs[1..]);
    assert hs[1..][1..] == hs[2..];
    var f3 := f2[hs[1].key := hs[1].field];
    StoreStep(f3, hs[2..]);
    assert hs[2..][1..] == hs[3..];
    var f4 := f3[hs[2].key := hs[2].field];
    StoreStep(f4, hs[3..]);
    assert hs[3..][1..] == hs[4..];
    var f5 := f4[hs[3].key := hs[3].field];
    StoreStep(f5, hs[4..]);
    assert hs[4..][1..] == [];
  }

  /** Storing a non-empty run of records writes the first one, then the
      rest. */
  lemma StoreStep(fields: map<Key, Field>, rs: seq<Record>)
    requires rs != []
    ensures Store(fields, rs) == Store(fields[rs[0].key := rs[0].field], rs[1..])
  {
  }

  lemma SecondStd(rule: ErrnoRule, b: seq<byte>) returns (r: Record)
    requires |b| == 21 && b[1] == 0x00 && b[2..6] == [0x41, 0x90, 0x28, 0xF6]
    ensures r == Record(ChanKey(0), StdField(Float(0x4190_28F6)))
    ensures Records(rule, b, 1) == [r] + Records(rule, b, 6)
  {
    StdRecordAt(rule, b, 1);
    assert Word32([0x41, 0x90, 0x28, 0xF6]) == 0x4190_28F6;
    r := Record(ChanKey(0), StdField(Float(0x4190_28F6)));
  }

  /** The five housekeeping records of the second sample. */
  lemma SecondHk(rule: ErrnoRule, b: seq<byte>) returns (hs: seq<Record>)
    requires |b| == 21
    requires b[6] == 0x5A && b[7] == 0x0D && b[8] == 0x7B && b[9] == 0x5B && b[10] == 0x00 && b[11] == 0xCD
    requires b[12] == 0x5C && b[13] == 0x01 && b[14] == 0xCF && b[15] == 0x5D && b[16] == 0x00 && b[17] == 0x00
    requires b[18] == 0x5E && b[19] == 0x26 && b[20] == 0xF9
    ensures hs == [Record(HkKey(90), HkField(HkValue(3451, 1000, BatVolts))),
                   Record(HkKey(91), HkField(HkValue(205, 10, IntTemp))),
                   Record(HkKey(92), HkField(HkValue(463, 10, IntHum))),
                   Record(HkKey(93), HkField(HkValue(0, 1, UsedCharge))),
                   Record(HkKey(94), HkField(HkValue(9977, 10, Baro)))]
    ensures Records(rule, b, 6) == hs
  {
    var r90 := HkStep(rule, b, 6, 90, 0x0D, 0x7B);
    var r91 := HkStep(rule, b, 9, 91, 0x00, 0xCD);
    var r92 := HkStep(rule, b, 12, 92, 0x01, 0xCF);
    var r93 := HkStep(rule, b, 15, 93, 0x00, 0x00);
    var r94 := HkStep(rule, b, 18, 94, 0x26, 0xF9);
    assert Records(rule, b, 21) == [];
    hs := [r90, r91, r92, r93, r94];
  }

  /** A complete housekeeping record for channel ch with word hi:lo. */
  lemma HkStep(rule: ErrnoRule, b: seq<byte>, c: nat, ch: byte, hi: byte, lo: byte) returns (r: Record)
    requires c + 3 <= |b| && b[c] == ch && b[c + 1] == hi && b[c + 2] == lo && 90 <= ch <= 99
    ensures r == Record(HkKey(ch), HkField(Value2HK(ch, hi * 0x100 + lo)))
    ensures Records(rule, b, c) == [r] + Records(rule, b, c + 3)
  {
    HkRecordAt(rule, b, c);
    r := Record(HkKey(ch), HkField(Value2HK(ch, hi * 0x100 + lo)));
  }
}
