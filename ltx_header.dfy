/** Byte 0 of an uplink: the status flags and the reason for sending.
    Bit 7 is the reset flag, bit 6 an active alarm (bit 5 an alarm that has
    gone again, reported only when bit 6 is clear), bit 4 a measurement
    flag, and the low nibble the reason code. */
module LtxHeader {
  import opened Words

  datatype Alarm = NoAlarm | Alarm | OldAlarm

  datatype Reason = Auto | Manual | Other(code: int)

  datatype Header = Header(reset: bool, alarm: Alarm, measure: bool, reason: Reason)

  /** The flag part of byte 0, shared by both decoder generations. */
  function Flags(flags: byte, reason: Reason): Header
  {
    Header(
      flags / 128 % 2 == 1,
      if flags / 64 % 2 == 1 then Alarm else if flags / 32 % 2 == 1 then OldAlarm else NoAlarm,
      flags / 16 % 2 == 1,
      reason)
  }

  /** The byte a sender builds from the flags and a reason code. */
  function FlagsByte(h: Header, code: nat): (b: byte)
    requires code < 16
  {
    (if h.reset then 128 else 0)
    + (match h.alarm case Alarm => 64 case OldAlarm => 32 case NoAlarm => 0)
    + (if h.measure then 16 else 0)
    + code
  }

  /** The reason codes of the current decoder: 2 is an automatic
      transmission, 3 a manual one, anything else is shown as is. */
  function LtxReason(code: int): Reason
  {
    if code == 2 then Auto else if code == 3 then Manual else Other(code)
  }

  function LtxReasonCode(r: Reason): int
  {
    match r
    case Auto => 2
    case Manual => 3
    case Other(c) => c
  }

  /** A header a sender can produce: its reason is a nibble, and Other never
      wraps a code that has a name of its own. */
  predicate ValidLtxHeader(h: Header)
  {
    0 <= LtxReasonCode(h.reason) < 16 && (h.reason.Other? ==> h.reason.code !in {2, 3})
  }

  function EncodeHeader(h: Header): (b: byte)
    requires ValidLtxHeader(h)
  {
    FlagsByte(h, LtxReasonCode(h.reason))
  }

  /** The header of the current decoder. */
  function ParseHeader(flags: byte): Header
  {
    Flags(flags, LtxReason(flags % 16))
  }

  /** A byte is its four flag bits and its low nibble. */
  lemma ByteFields(b: byte, r: nat, a: nat, o: nat, m: nat, c: nat)
    requires r < 2 && a < 2 && o < 2 && m < 2 && c < 16
    requires b == 128 * r + 64 * a + 32 * o + 16 * m + c
    ensures b / 128 % 2 == r && b / 64 % 2 == a && b / 32 % 2 == o && b / 16 % 2 == m && b % 16 == c
  {
    DivModUnique(b, 16, 8 * r + 4 * a + 2 * o + m, c);
    DivModUnique(b, 32, 4 * r + 2 * a + o, 16 * m + c);
    DivModUnique(b, 64, 2 * r + a, 32 * o + 16 * m + c);
    DivModUnique(b, 128, r, 64 * a + 32 * o + 16 * m + c);
    DivModUnique(8 * r + 4 * a + 2 * o + m, 2, 4 * r + 2 * a + o, m);
    DivModUnique(4 * r + 2 * a + o, 2, 2 * r + a, o);
    DivModUnique(2 * r + a, 2, r, a);
  }

  /** The only information ParseHeader drops is bit 5 when bit 6 is set (an
      active alarm hides an old one): encoding the header gives back byte 0
      with exactly that bit cleared. */
  lemma EncodeParseHeader(flags: byte)
    ensures ValidLtxHeader(ParseHeader(flags))
    ensures EncodeHeader(ParseHeader(flags))
         == if flags / 64 % 2 == 1 && flags / 32 % 2 == 1 then flags - 32 else flags
  {
    var r, a, o, m, c := flags / 128 % 2, flags / 64 % 2, flags / 32 % 2, flags / 16 % 2, flags % 16;
    assert flags == 16 * (flags / 16) + c;
    assert flags / 16 == 2 * (flags / 32) + m;
    assert flags / 32 == 2 * (flags / 64) + o;
    assert flags / 64 == 2 * (flags / 128) + a;
    assert flags / 128 == r;
    ByteFields(flags, r, a, o, m, c);
  }

  /** The other direction: every valid header survives encoding. */
  lemma ParseEncodeHeader(h: Header)
    requires ValidLtxHeader(h)
    ensures ParseHeader(EncodeHeader(h)) == h
  {
    var r := if h.reset then 1 else 0;
    var a := if h.alarm == Alarm then 1 else 0;
    var o := if h.alarm == OldAlarm then 1 else 0;
    var m := if h.measure then 1 else 0;
    ByteFields(EncodeHeader(h), r, a, o, m, LtxReasonCode(h.reason));
  }
}
