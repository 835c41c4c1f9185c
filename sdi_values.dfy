/** The value conversions of the older SDI decoder (paysdi.js, V0.1): a
    binary32 word or an error message for standard channels, and a scaled
    16-bit number with a label for housekeeping channels. */
module SdiValues {
  import opened Words
  import opened LtxTables

  /** `b[i]` of a JavaScript byte array as the decoder uses it: an index
      past the end gives `undefined`, which `<<`, `|` and `&` turn into 0,
      and a DataView byte that is never set stays 0. */
  function At(b: seq<byte>, i: int): (x: byte)
    ensures 0 <= i < |b| ==> x == b[i]
    ensures !(0 <= i < |b|) ==> x == 0
  {
    if 0 <= i < |b| then b[i] else 0
  }

  /** A standard channel's value: the big-endian binary32 word, or the
      message an error frame carries. */
  datatype SdiValue = Float(word: u32) | Msg(err: ErrorKind)

  /** The messages of bytesToLTXFloat: codes 1..3 and 6..8 have names;
      every other code, 0 included, is reported as "Err<n>". No code is
      lost. */
  function SdiError(errno: int): (k: ErrorKind)
    ensures ErrorCode(k) == errno
    ensures k.Unknown? <==> errno !in {1, 2, 3, 6, 7, 8}
  {
    match errno
    case 1 => NoValue
    case 2 => NoReply
    case 3 => OldValue
    case 6 => ErrorCRC
    case 7 => DataError
    case 8 => NoCachedValue
    case _ => Unknown(errno)
  }

  /** The SDI table is the LTX table without its entry for 0: code 0 is a
      number overflow for the LTX decoder but "Err0" here. */
  lemma SdiErrorIsLtxError(errno: int)
    ensures SdiError(errno) == if errno == 0 then Unknown(0) else LtxError(errno)
  {
  }

  /** The error number as the decoder computes it, `bytes[2] << 8 |
      bytes[2]`: byte 2 is used twice and byte 3 never. The two halves
      have no bit in common, so the `|` is a sum. */
  function ErrnoAsWritten(s: seq<byte>): u16
  {
    At(s, 2) * 0x100 + At(s, 2)
  }

  /** The error number as intended: bytes 2 and 3, big-endian. */
  function Errno(s: seq<byte>): u16
  {
    At(s, 2) * 0x100 + At(s, 3)
  }

  /** bytesToLTXFloat as written: a first byte 0xFD marks an error frame;
      any other word is the binary32 value of the (zero-padded) bytes. */
  function BytesToLtxFloatAsWritten(s: seq<byte>): SdiValue
    requires |s| <= 4
  {
    if At(s, 0) == 0xFD then Msg(SdiError(ErrnoAsWritten(s)))
    else Float(Word32(s))
  }

  /** bytesToLTXFloat with the error number read from bytes 2 and 3. */
  function BytesToLtxFloat(s: seq<byte>): SdiValue
    requires |s| <= 4
  {
    if At(s, 0) == 0xFD then Msg(SdiError(Errno(s)))
    else Float(Word32(s))
  }

  /** Which error number bytesToLTXFloat reads an error frame with: the one
      the decoder computes, or the intended one. */
  datatype ErrnoRule = AsWritten | Intended

  /** The value of a standard record under either rule: both read the same
      binary32 word, and they differ only in the error number. */
  function StdValue(rule: ErrnoRule, s: seq<byte>): (v: SdiValue)
    requires |s| <= 4
    ensures v.Msg? <==> At(s, 0) == 0xFD
    ensures v.Float? ==> v.word == Word32(s)
  {
    if rule == AsWritten then BytesToLtxFloatAsWritten(s) else BytesToLtxFloat(s)
  }

  /** The big-endian word of up to four bytes, missing bytes read as 0:
      the DataView starts zeroed and only the bytes present are set. */
  function Word32(s: seq<byte>): u32
  {
    ((At(s, 0) * 0x100 + At(s, 1)) * 0x100 + At(s, 2)) * 0x100 + At(s, 3)
  }

  /** The as-written error number is a multiple of 257, so it is never one
      of the named codes 1..8: every error frame comes out as "Err<n>". */
  lemma ErrnoAsWrittenNeverNamed(s: seq<byte>)
    requires |s| <= 4 && At(s, 0) == 0xFD
    ensures ErrnoAsWritten(s) % 257 == 0
    ensures BytesToLtxFloatAsWritten(s).Msg? && BytesToLtxFloatAsWritten(s).err.Unknown?
  {
    assert ErrnoAsWritten(s) == 257 * At(s, 2);
  }

  /** FD 00 00 02 is the NoReply frame; as written it reads "Err0". */
  lemma NoReplyFrameAsWritten()
    ensures BytesToLtxFloatAsWritten([0xFD, 0x00, 0x00, 0x02]) == Msg(Unknown(0))
    ensures BytesToLtxFloat([0xFD, 0x00, 0x00, 0x02]) == Msg(NoReply)
  {
  }

  /** The error frame a sensor sends for a code: 0xFD, a spare byte, and
      the code big-endian. */
  function ErrorFrame(code: u16): (s: seq<byte>)
    ensures |s| == 4
  {
    [0xFD, 0x00, code / 0x100, code % 0x100]
  }

  /** Every error frame reads back as its own code. */
  lemma ErrorFrameRoundTrip(code: u16)
    ensures BytesToLtxFloat(ErrorFrame(code)) == Msg(SdiError(code))
    ensures ErrorCode(BytesToLtxFloat(ErrorFrame(code)).err) == code
  {
  }

  /** Every binary32 word whose top byte is not 0xFD reads back as itself
      from its four big-endian bytes. */
  lemma FloatRoundTrip(w: u32)
    requires w / 0x100_0000 != 0xFD
    ensures BytesToLtxFloat(Split32(w)) == Float(w)
  {
    var s := Split32(w);
    assert Word32(s) == BE32(s, 0);
  }

  /** The other direction: four bytes that are not an error frame are the
      bytes of the word they decode to. */
  lemma FloatBytes(s: seq<byte>)
    requires |s| == 4 && BytesToLtxFloat(s).Float?
    ensures s[0] != 0xFD
    ensures Split32(BytesToLtxFloat(s).word) == s
  {
    assert Word32(s) == BE32(s, 0);
    Split32OfBE32(s, 0);
    assert s[0..4] == s;
  }

  /** A short slice at the end of a frame decodes as if it were padded
      with zero bytes. */
  lemma ZeroPadding(s: seq<byte>)
    requires |s| <= 4
    ensures BytesToLtxFloat(s) == BytesToLtxFloat(s + Zeros(4 - |s|))
    ensures BytesToLtxFloatAsWritten(s) == BytesToLtxFloatAsWritten(s + Zeros(4 - |s|))
  {
    var p := s + Zeros(4 - |s|);
    PaddedBytes(s);
    assert Word32(s) == Word32(p) && Errno(s) == Errno(p) && ErrnoAsWritten(s) == ErrnoAsWritten(p);
  }

  /** Padding with zeros changes none of the first four bytes. */
  lemma PaddedBytes(s: seq<byte>)
    requires |s| <= 4
    ensures forall i :: 0 <= i < 4 ==> At(s, i) == At(s + Zeros(4 - |s|), i)
  {
    var p := s + Zeros(4 - |s|);
    forall i | 0 <= i < 4
      ensures At(s, i) == At(p, i)
    {
      if i >= |s| { assert p[i] == Zeros(4 - |s|)[i - |s|]; }
    }
  }

  function Zeros(n: nat): (z: seq<byte>)
    ensures |z| == n && forall i :: 0 <= i < n ==> z[i] == 0
  {
    if n == 0 then [] else Zeros(n - 1) + [0]
  }

  /** value2HK's two's complement: a 16-bit word with bit 15 set stands
      for the word minus 0x10000. */
  function Signed16(u: u16): int
  {
    if u >= 0x8000 then u - 0x1_0000 else u
  }

  /** Signed16 gives the one number in [-0x8000, 0x8000) that is the word
      modulo 0x10000. */
  lemma Signed16Unique(u: u16, n: int)
    ensures -0x8000 <= Signed16(u) < 0x8000
    ensures Signed16(u) % 0x1_0000 == u
    ensures -0x8000 <= n < 0x8000 && n % 0x1_0000 == u ==> n == Signed16(u)
  {
    if -0x8000 <= n < 0x8000 && n % 0x1_0000 == u {
      if n < 0 { DivModUnique(n, 0x1_0000, -1, n + 0x1_0000); }
      else { DivModUnique(n, 0x1_0000, 0, n); }
    }
  }

  /** The labels value2HK attaches: battery volts, internal temperature,
      internal humidity, used charge, barometric pressure, and the
      placeholder for every other channel. */
  datatype HkLabel = BatVolts | IntTemp | IntHum | UsedCharge | Baro | Unlabelled

  function HkLabelText(l: HkLabel): string
  {
    match l
    case BatVolts => "V(Bat)"
    case IntTemp => "°C(int.)"
    case IntHum => "%rH(int.)"
    case UsedCharge => "mAh(used)"
    case Baro => "mBar(Baro)"
    case Unlabelled => "(???)"
  }

  /** Distinct labels have distinct texts. */
  lemma HkLabelTextInjective(a: HkLabel, b: HkLabel)
    requires HkLabelText(a) == HkLabelText(b)
    ensures a == b
  {
  }

  /** A housekeeping value: the value reported is number / divisor. */
  datatype HkValue = HkValue(number: int, divisor: nat, desc: HkLabel)

  function HkReal(h: HkValue): real
    requires h.divisor > 0
  {
    h.number as real / h.divisor as real
  }

  /** The scale of each housekeeping channel: millivolts on 90, tenths on
      91, 92 and 94, whole units on 93; other channels are not scaled. */
  function HkDivisor(ch: int): nat
  {
    match ch
    case 90 => 1000
    case 91 => 10
    case 92 => 10
    case 94 => 10
    case _ => 1
  }

  /** value2HK: only channel 91 is signed; the label tells which of
      channels 90..94 the value came from, and the word can always be
      recovered from the number. */
  function Value2HK(ch: int, u: u16): (h: HkValue)
    ensures h.divisor == HkDivisor(ch) && h.divisor > 0
    ensures h.number % 0x1_0000 == u
    ensures ch == 91 ==> -0x8000 <= h.number < 0x8000
    ensures ch != 91 ==> h.number == u
    ensures h.desc == Unlabelled <==> !(90 <= ch <= 94)
  {
    Signed16Unique(u, 0);
    var i := Signed16(u);
    match ch
    case 90 => HkValue(u, 1000, BatVolts)
    case 91 => HkValue(i, 10, IntTemp)
    case 92 => HkValue(u, 10, IntHum)
    case 93 => HkValue(u, 1, UsedCharge)
    case 94 => HkValue(u, 10, Baro)
    case _ => HkValue(u, 1, Unlabelled)
  }

  /** The description names the channel: two labelled values with the same label
      come from the same channel. */
  lemma HkLabelChannel(a: int, b: int, u: u16, v: u16)
    requires Value2HK(a, u).desc == Value2HK(b, v).desc != Unlabelled
    ensures a == b
  {
  }

  /** Round trip with the sender: a reading in the channel's range, sent as
      its 16-bit word, comes back as the same number. */
  lemma HkRoundTrip(ch: int, n: int)
    requires ch == 91 ==> -0x8000 <= n < 0x8000
    requires ch != 91 ==> 0 <= n < 0x1_0000
    ensures Value2HK(ch, n % 0x1_0000).number == n
    ensures HkReal(Value2HK(ch, n % 0x1_0000)) * HkDivisor(ch) as real == n as real
  {
    Signed16Unique(n % 0x1_0000, n);
  }
}
