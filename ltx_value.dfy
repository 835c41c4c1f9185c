/** What one LTX reading carries: the raw IEEE 754 binary16 or binary32 word
    as sent, or the error the word encodes. A word whose sign bit and
    exponent field are all ones is an in-band sentinel whose mantissa is an
    error code; any other word with an all-ones exponent (a positive
    infinity or NaN) is reported as NumberOverflow. Only the bit layout is
    modelled, not the floating-point value. */
module LtxValue {
  import opened Words
  import opened LtxTables

  datatype Precision = F16 | F32

  /** Exactly one of `value` (kept as the raw word) or `msg`. */
  datatype Payload = Value(word: int) | Msg(err: ErrorKind)

  /** binary16: sign bit 15, exponent bits 14..10, mantissa bits 9..0. */
  function SignBit16(w: u16): nat { w / 0x8000 }
  function Exponent16(w: u16): nat { w / 0x400 % 0x20 }
  function Mantissa16(w: u16): nat { w % 0x400 }

  /** `(u16 >>> 10) == 0x3F`: the top six bits are all ones. */
  predicate IsSentinel16(w: u16)
  {
    w / 0x400 == 0x3F
  }

  /** The half-precision value is finite unless its exponent is all ones. */
  predicate IsFinite16(w: u16)
  {
    Exponent16(w) != 0x1F
  }

  /** The payload of one F16 reading, decided on the word's range: words
      from 0xFC00 up are sentinels whose offset from 0xFC00 is the error
      code, 0x7C00..0x7FFF are +Infinity and NaNs (error code 0), and every
      other word is a finite value. */
  function Payload16(w: u16): Payload
  {
    if w >= 0xFC00 then Msg(LtxError(w - 0xFC00))
    else if 0x7C00 <= w < 0x8000 then Msg(LtxError(0))
    else Value(w)
  }

  /** Payload16 follows the source's bit tests: a value is kept exactly when
      the word is finite; sentinels carry their mantissa as error code, and
      the remaining non-finite words, which are all positive, overflow. */
  lemma Payload16Rules(w: u16)
    ensures Payload16(w).Value? <==> IsFinite16(w)
    ensures Payload16(w).Value? ==> Payload16(w).word == w
    ensures IsSentinel16(w) ==> Payload16(w) == Msg(LtxError(Mantissa16(w)))
    ensures !IsSentinel16(w) && !IsFinite16(w) ==> SignBit16(w) == 0 && Payload16(w) == Msg(NumberOverflow)
  {
    var top := w / 0x400;
    assert w == top * 0x400 + Mantissa16(w);
    assert IsSentinel16(w) <==> w >= 0xFC00;
    assert Exponent16(w) == 0x1F <==> top == 0x1F || top == 0x3F;
  }

  /** binary32: sign bit 31, exponent bits 30..23, mantissa bits 22..0. */
  function SignBit32(w: u32): nat { w / 0x8000_0000 }
  function Exponent32(w: u32): nat { w / 0x80_0000 % 0x100 }
  function Mantissa32(w: u32): nat { w % 0x80_0000 }

  /** `(u32 >>> 23) == 0x1FF`: the top nine bits are all ones. */
  predicate IsSentinel32(w: u32)
  {
    w / 0x80_0000 == 0x1FF
  }

  predicate IsFinite32(w: u32)
  {
    Exponent32(w) != 0xFF
  }

  /** The payload of one F32 reading, decided on the word's range by the
      same rules as Payload16. */
  function Payload32(w: u32): Payload
  {
    if w >= 0xFF80_0000 then Msg(LtxError(w - 0xFF80_0000))
    else if 0x7F80_0000 <= w < 0x8000_0000 then Msg(LtxError(0))
    else Value(w)
  }

  /** Payload32 follows the source's bit tests, as Payload16Rules states
      for binary16. */
  lemma Payload32Rules(w: u32)
    ensures Payload32(w).Value? <==> IsFinite32(w)
    ensures Payload32(w).Value? ==> Payload32(w).word == w
    ensures IsSentinel32(w) ==> Payload32(w) == Msg(LtxError(Mantissa32(w)))
    ensures !IsSentinel32(w) && !IsFinite32(w) ==> SignBit32(w) == 0 && Payload32(w) == Msg(NumberOverflow)
  {
    var top := w / 0x80_0000;
    assert w == top * 0x80_0000 + Mantissa32(w);
    assert IsSentinel32(w) <==> w >= 0xFF80_0000;
    assert Exponent32(w) == 0xFF <==> top == 0xFF || top == 0x1FF;
  }

  /** The F16 word a sensor sends to report error code c. */
  function Sentinel16(c: nat): (w: u16)
    requires c < 0x400
    ensures IsSentinel16(w) && Mantissa16(w) == c
  {
    0xFC00 + c
  }

  /** The F32 word a sensor sends to report error code c. */
  function Sentinel32(c: nat): (w: u32)
    requires c < 0x80_0000
    ensures IsSentinel32(w) && Mantissa32(w) == c
  {
    0xFF80_0000 + c
  }

  /** Every error code that fits the mantissa survives the trip through a
      sentinel word, in both widths. */
  lemma SentinelRoundTrip(c: nat)
    requires c < 0x400
    ensures Payload16(Sentinel16(c)) == Msg(LtxError(c))
    ensures Payload32(Sentinel32(c)) == Msg(LtxError(c))
  {
  }

  /** A message-carrying word is either a sentinel (and then it is the
      sentinel of its own code) or an all-ones exponent with the sign clear. */
  lemma Payload16Msg(w: u16)
    requires Payload16(w).Msg?
    ensures IsSentinel16(w) ==> w == Sentinel16(Mantissa16(w))
    ensures !IsSentinel16(w) ==> Exponent16(w) == 0x1F && SignBit16(w) == 0
  {
  }
}
