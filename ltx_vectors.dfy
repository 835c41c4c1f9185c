/** Worked frames for the LTX uplink decoder: the sentinel words of the
    source's own examples and a few whole frames, decoded by the model. */
module LtxVectors {
  import opened Wrappers
  import opened Words
  import opened LtxTables
  import opened LtxValue
  import opened LtxHeader
  import opened LtxSpec
  import opened LtxProperties

  /** FC02 is the binary16 sentinel of error 2, FF800002 the binary32 one;
      both read as NoReply. 7C00 (+Infinity) is a number overflow, 3C00
      (1.0) a value. */
  lemma SentinelWords()
    ensures Payload16(0xFC02) == Msg(NoReply)
    ensures Payload32(0xFF80_0002) == Msg(NoReply)
    ensures Payload16(0x7C00) == Msg(NumberOverflow)
    ensures Payload16(0x3C00) == Value(0x3C00)
  {
  }

  /** Header 0x92: reset and measure flags, reason 2 (automatic). */
  lemma HeaderByte()
    ensures ParseHeader(0x92) == Header(true, NoAlarm, true, Auto)
    ensures ParseHeader(0x63) == Header(false, Alarm, false, Manual)
    ensures ParseHeader(0x00) == Header(false, NoAlarm, false, Other(0))
  {
  }

  /** Token bytes: 0x42 and 0x44 announce binary16 runs of two and four
      values, 0x02 a binary32 run of two, 0x85 an HK token with mask
      0b0000101, 0x80 one with an empty mask, 0x40 a channel jump. */
  lemma TokenBytes()
    ensures TokenOf(0x42) == RunTok(2, true) && TokenOf(0x44) == RunTok(4, true)
    ensures TokenOf(0x02) == RunTok(2, false)
    ensures TokenOf(0x85) == HkTok(5) && TokenOf(0x80) == HkTok(0)
    ensures TokenOf(0x40) == JumpTok
  {
  }

  /** A binary16 run of two values on port 11 (%rH, °C): the first is 1.0,
      the second the NoReply sentinel; channels 0 and 1 take the port's
      units in order. */
  lemma RunFrame()
    ensures DecoderSpec([0x92, 0x42, 0x3C, 0x00, 0xFC, 0x02], 11)
         == Ok(Decoded(Header(true, NoAlarm, true, Auto),
                       [Reading(0, F16, Some(RelHum), Value(0x3C00)),
                        Reading(1, F16, Some(DegC), Msg(NoReply))]))
  {
    var b: seq<byte> := [0x92, 0x42, 0x3C, 0x00, 0xFC, 0x02];
    var u := PortUnits(11);
    assert u == [RelHum, DegC];
    assert TokenOf(b[1]) == RunTok(2, true);
    TokensNext(b, 1, 0, 0, u);
    assert Tokens(b, 6, 2, 2, u) == Ok([]);
    assert BE16(b, 2) == 0x3C00 && BE16(b, 4) == 0xFC02;
    assert UnitAt(u, 1) == Some(DegC);
    RunReadings(b, 1, RunTok(2, true), 0, 0, u);
    var rs := [Reading(0, F16, Some(RelHum), Value(0x3C00)), Reading(1, F16, Some(DegC), Msg(NoReply))];
    assert RunBlock(b, 2, 0, 0, 2, true, u) == rs;
    assert TokenSize(RunTok(2, true)) == 4;
    assert Tokens(b, 1, 0, 0, u) == Then(rs, Tokens(b, 6, 2, 2, u));
    assert rs + [] == rs;
    HeaderByte();
  }

  /** A housekeeping token with mask 0b101 right after the header: channels
      90 and 92, described as battery voltage and internal humidity. */
  const HkBytes: seq<byte> := [0x00, 0x85, 0x3C, 0x00, 0x7C, 0x00]
  const HkReadingsOf: seq<Reading> :=
    [Reading(90, F16, Some(HkBat), Value(0x3C00)), Reading(92, F16, Some(HkIntHum), Msg(NumberOverflow))]

  lemma HkFrame()
    ensures DecoderSpec(HkBytes, 1) == Ok(Decoded(Header(false, NoAlarm, false, Other(0)), HkReadingsOf))
  {
    HkFrameTokens();
    FrameOf(HkBytes, 1, HkReadingsOf);
    assert HkBytes[0] == 0x00;
    HeaderByte();
  }

  lemma HkFrameTokens()
    ensures Tokens(HkBytes, 1, 0, 0, PortUnits(1)) == Ok(HkReadingsOf)
  {
    var b := HkBytes;
    assert TokenOf(b[1]) == HkTok(5);
    assert TokenSize(HkTok(5)) == 4 by { assert Ones(5, 7) == 2; }
    TokensNext(b, 1, 0, 0, PortUnits(1));
    HkReadings(b, 1, HkTok(5), 0, 0, PortUnits(1));
    HkFrameBlock();
    assert Tokens(b, 6, 97, 0, PortUnits(1)) == Ok([]);
    assert HkReadingsOf + [] == HkReadingsOf;
  }

  lemma HkFrameBlock()
    ensures 2 + 2 * Ones(5, 7) <= |HkBytes|
    ensures HkBlock(HkBytes, 2, 90, 5, 7) == HkReadingsOf
  {
    var b := HkBytes;
    assert Ones(0, 4) == 0 && Ones(1, 5) == 1 && Ones(2, 6) == 1 && Ones(5, 7) == 2;
    assert HkBlock(b, 6, 93, 0, 4) == [];
    var r90, r92 := HkReading(b, 2, 90), HkReading(b, 4, 92);
    assert HkBlock(b, 4, 92, 1, 5) == [r92] + HkBlock(b, 6, 93, 0, 4);
    assert HkBlock(b, 4, 91, 2, 6) == HkBlock(b, 4, 92, 1, 5);
    assert HkBlock(b, 2, 90, 5, 7) == [r90] + HkBlock(b, 4, 91, 2, 6);
    assert BE16(b, 2) == 0x3C00 && BE16(b, 4) == 0x7C00;
    assert [r90] + ([r92] + []) == HkReadingsOf;
  }

  /** A binary32 run that announces two values but carries one: the frame
      is rejected as a whole. */
  lemma TruncatedFrame()
    ensures DecoderSpec([0x00, 0x02, 0xFF, 0x80, 0x00, 0x02, 0x00], 10) == Err(TruncatedF32)
  {
    var b: seq<byte> := [0x00, 0x02, 0xFF, 0x80, 0x00, 0x02, 0x00];
    assert TokenOf(b[1]) == RunTok(2, false);
  }

  /** No payload at all, and a port out of range. */
  lemma RejectedFrames()
    ensures DecoderSpec([], 10) == Err(EmptyPayload)
    ensures DecoderSpec([0x00], 200) == Err(UnknownPort(200))
    ensures DecoderSpec([0x00], 0) == Err(UnknownPort(0))
  {
  }

  /** The source's live test frame, sent on port 1: header 0x12 (measure
      flag, automatic), then token 0x58, a binary16 run of 24 values. The
      words 7C00 on channels 6 and 7 are +Infinity and read as overflows;
      port 1 has no unit profile. */
  const TestFrame: seq<byte> := [0x12, 0x58] + TestWordsLow + TestWordsHigh
  /** The values of channels 0..11 and 12..23, two bytes each. */
  const TestWordsLow: seq<byte> := [
    0x5B, 0xB0, 0x00, 0x00, 0x00, 0x00, 0x3C, 0x00, 0x5C, 0x7B, 0x72, 0xB6,
    0x7C, 0x00, 0x7C, 0x00, 0x5B, 0xB0, 0x55, 0x99, 0x56, 0x44, 0x56, 0xE2]
  const TestWordsHigh: seq<byte> := [
    0x57, 0x84, 0x58, 0x0C, 0x58, 0x62, 0x58, 0xB5, 0x58, 0xFC, 0x59, 0x4F,
    0x59, 0x9C, 0x59, 0xEE, 0x5A, 0x3C, 0x5A, 0x8C, 0x5A, 0xE4, 0x5B, 0x29]
  const TestReadings: seq<Reading> := TestReadingsLow + TestReadingsHigh
  const TestReadingsLow: seq<Reading> := [
    Reading(0, F16, None, Value(0x5BB0)), Reading(1, F16, None, Value(0x0000)),
    Reading(2, F16, None, Value(0x0000)), Reading(3, F16, None, Value(0x3C00)),
    Reading(4, F16, None, Value(0x5C7B)), Reading(5, F16, None, Value(0x72B6)),
    Reading(6, F16, None, Msg(NumberOverflow)), Reading(7, F16, None, Msg(NumberOverflow)),
    Reading(8, F16, None, Value(0x5BB0)), Reading(9, F16, None, Value(0x5599)),
    Reading(10, F16, None, Value(0x5644)), Reading(11, F16, None, Value(0x56E2))]
  const TestReadingsHigh: seq<Reading> := [
    Reading(12, F16, None, Value(0x5784)), Reading(13, F16, None, Value(0x580C)),
    Reading(14, F16, None, Value(0x5862)), Reading(15, F16, None, Value(0x58B5)),
    Reading(16, F16, None, Value(0x58FC)), Reading(17, F16, None, Value(0x594F)),
    Reading(18, F16, None, Value(0x599C)), Reading(19, F16, None, Value(0x59EE)),
    Reading(20, F16, None, Value(0x5A3C)), Reading(21, F16, None, Value(0x5A8C)),
    Reading(22, F16, None, Value(0x5AE4)), Reading(23, F16, None, Value(0x5B29))]

  lemma TestFrameDecodes()
    ensures DecoderSpec(TestFrame, 1) == Ok(Decoded(Header(false, NoAlarm, true, Auto), TestReadings))
  {
    var b := TestFrame;
    assert PortUnits(1) == [];
    assert TokenOf(b[1]) == RunTok(24, true);
    TokensNext(b, 1, 0, 0, []);
    RunReadings(b, 1, RunTok(24, true), 0, 0, []);
    assert Tokens(b, 50, 24, 24, []) == Ok([]);
    TestRun();
    assert TestReadings + [] == TestReadings;
    FrameOf(b, 1, TestReadings);
    assert ParseHeader(0x12) == Header(false, NoAlarm, true, Auto);
  }

  /** The run of the test frame reads the 24 words in order. */
  lemma TestRun()
    ensures RunBlock(TestFrame, 2, 0, 0, 24, true, []) == TestReadings
  {
    var rs := RunBlock(TestFrame, 2, 0, 0, 24, true, []);
    TestRunFrom(0, 12, 24);
    TestRunFrom(12, 24, 24);
    assert |rs| == |TestReadings|;
  }

  /** Readings lo..hi-1 of the run; n stands for the run's count. */
  lemma TestRunFrom(lo: nat, hi: nat, n: nat)
    requires lo <= hi <= n == 24
    ensures forall i :: lo <= i < hi ==> RunBlock(TestFrame, 2, 0, 0, n, true, [])[i] == TestReadings[i]
  {
    forall i | lo <= i < hi
      ensures RunBlock(TestFrame, 2, 0, 0, n, true, [])[i] == TestReadings[i]
    {
      TestReadingAt(i, n);
    }
  }

  lemma TestReadingAt(i: nat, n: nat)
    requires i < n == 24
    ensures RunBlock(TestFrame, 2, 0, 0, n, true, [])[i] == TestReadings[i]
  {
    TestWordAt(i);
    RunReadingIs(TestFrame, TestReadings[i], i, n);
  }

  /** A reading that is the i-th word of a binary16 run at offset 2 is the
      run's i-th reading. */
  lemma RunReadingIs(b: seq<byte>, r: Reading, i: nat, n: nat)
    requires i < n && 2 + 2 * n <= |b|
    requires r == StdReading(b, 2 + 2 * i, i, i, true, [])
    ensures RunBlock(b, 2, 0, 0, n, true, [])[i] == r
  {
    RunBlockAt(b, 2, 0, 0, n, true, [], i);
  }

  /** The i-th reading of the test frame is the binary16 word 2i bytes past
      the token, on channel i and without a unit. */
  lemma TestWordAt(i: nat)
    requires i < 24
    ensures TestReadings[i] == StdReading(TestFrame, 2 + 2 * i, i, i, true, [])
  {
    TestHalves();
    if i < 12 {
      TestWordLow(i);
      SliceWord(TestFrame, TestWordsLow, 2, 2 * i);
    } else {
      TestWordHigh(i - 12);
      SliceWord(TestFrame, TestWordsHigh, 26, 2 * i - 24);
    }
  }

  lemma TestHalves()
    ensures |TestFrame| == 50 && TestFrame[2..26] == TestWordsLow && TestFrame[26..50] == TestWordsHigh
    ensures |TestReadingsLow| == 12 && TestReadings == TestReadingsLow + TestReadingsHigh
  {
  }

  /** A word inside a slice is the same word of the whole frame. */
  lemma SliceWord(b: seq<byte>, w: seq<byte>, off: nat, k: nat)
    requires off + |w| <= |b| && b[off..off + |w|] == w && k + 2 <= |w|
    ensures BE16(b, off + k) == BE16(w, k)
  {
    assert b[off + k] == w[k] && b[off + k + 1] == w[k + 1];
  }

  lemma TestWordLow(i: nat)
    requires i < 12
    ensures TestReadingsLow[i] == Reading(i, F16, None, Payload16(BE16(TestWordsLow, 2 * i)))
  {
    if i == 0 {} else if i == 1 {} else if i == 2 {} else if i == 3 {} else if i == 4 {} else if i == 5 {} else if i == 6 {} else if i == 7 {} else if i == 8 {} else if i == 9 {} else if i == 10 {} else {}
  }

  lemma TestWordHigh(i: nat)
    requires i < 12
    ensures TestReadingsHigh[i] == Reading(12 + i, F16, None, Payload16(BE16(TestWordsHigh, 2 * i)))
  {
    if i == 0 {} else if i == 1 {} else if i == 2 {} else if i == 3 {} else if i == 4 {} else if i == 5 {} else if i == 6 {} else if i == 7 {} else if i == 8 {} else if i == 9 {} else if i == 10 {} else {}
  }

  /** Channel numbers above 127 occur: five HK tokens with an empty mask
      take the channel cursor from 0 to 125, and a binary16 run of four
      values then covers channels 125 to 128. Whatever follows is not
      read, because the cursor is then past 127. */
  lemma ChannelAbove127(b: seq<byte>)
    requires |b| >= 15
    requires b[1] == 0x80 && b[2] == 0x80 && b[3] == 0x80 && b[4] == 0x80 && b[5] == 0x80
    requires b[6] == 0x44
    ensures DecoderSpec(b, 1).Ok?
    ensures |DecoderSpec(b, 1).value.chans| == 4
    ensures DecoderSpec(b, 1).value.chans[3].channel == 128
  {
    var rs := HighRun(b);
    FrameOf(b, 1, rs);
  }

  lemma HighRun(b: seq<byte>) returns (rs: seq<Reading>)
    requires |b| >= 15
    requires b[1] == 0x80 && b[2] == 0x80 && b[3] == 0x80 && b[4] == 0x80 && b[5] == 0x80
    requires b[6] == 0x44
    ensures Tokens(b, 1, 0, 0, PortUnits(1)) == Ok(rs)
    ensures |rs| == 4 && rs[3].channel == 128
  {
    assert PortUnits(1) == [];
    TokenBytes();
    assert TokenOf(b[6]) == RunTok(4, true);
    FiveEmptyHk(b);
    TokensNext(b, 6, 125, 0, []);
    RunReadings(b, 6, RunTok(4, true), 125, 0, []);
    rs := RunBlock(b, 7, 125, 0, 4, true, []);
    assert Tokens(b, 15, 129, 4, []) == Ok([]);
    assert rs + [] == rs;
    RunBlockLast(b, 7, 125, 0, 4, true, []);
  }

  /** Five HK tokens with an empty mask move the cursor from 0 to 125. */
  lemma FiveEmptyHk(b: seq<byte>)
    requires |b| >= 6
    requires b[1] == 0x80 && b[2] == 0x80 && b[3] == 0x80 && b[4] == 0x80 && b[5] == 0x80
    ensures Tokens(b, 1, 0, 0, []) == Tokens(b, 6, 125, 0, [])
  {
    EmptyHk(b, 1, 0);
    EmptyHk(b, 2, 97);
    EmptyHk(b, 3, 104);
    EmptyHk(b, 4, 111);
    EmptyHk(b, 5, 118);
  }

  /** An HK token with an empty mask reads nothing and moves the channel
      cursor to HkStart(ichan) + 7. */
  lemma EmptyHk(b: seq<byte>, pos: nat, ichan: nat)
    requires pos < |b| && b[pos] == 0x80 && ichan < 128
    ensures Tokens(b, pos, ichan, 0, []) == Tokens(b, pos + 1, HkStart(ichan) + 7, 0, [])
  {
    assert TokenOf(b[pos]) == HkTok(0);
    assert TokenSize(HkTok(0)) == 0 by { assert Ones(0, 7) == 0; }
    TokensNext(b, pos, ichan, 0, []);
    HkReadings(b, pos, HkTok(0), ichan, 0, []);
    assert HkBlock(b, pos + 1, HkStart(ichan), 0, 7) == [];
    ThenEmpty(Tokens(b, pos + 1, HkStart(ichan) + 7, 0, []));
  }

  lemma RunBlockLast(b: seq<byte>, pos: nat, ichan: int, dtidx: nat, n: nat, f16: bool, units: seq<Unit>)
    requires n > 0 && pos + RunLength(n, f16) <= |b|
    ensures RunBlock(b, pos, ichan, dtidx, n, f16, units)[n - 1].channel == ichan + n - 1
  {
  }

  /** A frame whose token stream succeeds decodes to its header and the
      stream's readings. */
  lemma FrameOf(bytes: seq<byte>, port: int, rs: seq<Reading>)
    requires |bytes| >= 1 && 1 <= port <= 199
    requires Tokens(bytes, 1, 0, 0, PortUnits(port)) == Ok(rs)
    ensures DecoderSpec(bytes, port) == Ok(Decoded(ParseHeader(bytes[0]), rs))
  {
  }
}
