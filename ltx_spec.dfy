/** What the LTX uplink decoder (V1.17) computes, as functions. Byte 0 is
    the header, the rest a stream of self-describing tokens:

    - A token below 128 is a standard run: its low 6 bits are a count c and
      bit 6 selects binary16 (set) or binary32 (clear). c > 0 values follow
      for channels ichan, ichan + 1, ...; c = 0 is a channel jump: one more
      byte is read into ichan and decoding stops.
    - A token of 128 or more is a housekeeping (HK) block: ichan is raised
      to at least 90, then each set bit of the low 7 bits, least significant
      first, is followed by one binary16 value; ichan advances by 7 in all.

    A new token is read only while bytes remain and ichan < 128. Any
    truncated value makes the whole decode an error, with no readings. */
module LtxSpec {
  import opened Wrappers
  import opened Words
  import opened LtxTables
  import opened LtxValue
  import opened LtxHeader

  /** One entry of `chans`. `unit` is absent only for standard readings on
      a port without a unit profile. */
  datatype Reading = Reading(channel: int, prec: Precision, unit: Option<Unit>, payload: Payload)

  datatype Decoded = Decoded(header: Header, chans: seq<Reading>)

  /** The `{errors: [...]}` results: "Payload len < 1", "fPort:<n> unknown"
      and "Format(1)" to "Format(4)" for the four truncations. */
  datatype FormatError =
    | EmptyPayload
    | UnknownPort(port: int)
    | TruncatedJump
    | TruncatedF32
    | TruncatedF16
    | TruncatedHK

  /** The readings still to come, or the error that discards all of them. */
  type Outcome = Result<seq<Reading>, FormatError>

  /** `done` followed by whatever `o` produces; an error wins. */
  function Then(done: seq<Reading>, o: Outcome): Outcome
  {
    match o
    case Ok(rest) => Ok(done + rest)
    case Err(e) => Err(e)
  }

  /** Bytes per value: 2 for binary16, 4 for binary32. */
  function Width(f16: bool): nat
  {
    if f16 then 2 else 4
  }

  /** Bytes taken by n values of one width. */
  function RunLength(n: nat, f16: bool): nat
  {
    if f16 then 2 * n else 4 * n
  }

  function TruncatedRun(f16: bool): FormatError
  {
    if f16 then TruncatedF16 else TruncatedF32
  }

  /** The k-th entry of a non-empty profile read cyclically: past the end,
      counting starts again at the first entry. */
  function Cycle(units: seq<Unit>, k: nat): Unit
    requires |units| > 0
    decreases k
  {
    if k < |units| then units[k] else Cycle(units, k - |units|)
  }

  /** Cycling is indexing modulo the profile length, as the decoder does. */
  lemma {:induction false} CycleIsMod(units: seq<Unit>, k: nat)
    requires |units| > 0
    ensures Cycle(units, k) == units[k % |units|]
    decreases k
  {
    if k >= |units| {
      CycleIsMod(units, k - |units|);
      ModSub(k, |units|);
    }
  }

  /** The unit of the dtidx-th standard reading: the port profile cycled,
      or none when the port has no profile. */
  function UnitAt(units: seq<Unit>, dtidx: nat): Option<Unit>
  {
    if |units| > 0 then Some(Cycle(units, dtidx)) else None
  }

  /** A standard reading of the value at pos. */
  function StdReading(b: seq<byte>, pos: nat, ichan: int, dtidx: nat, f16: bool, units: seq<Unit>): Reading
    requires pos + Width(f16) <= |b|
  {
    if f16 then Reading(ichan, F16, UnitAt(units, dtidx), Payload16(BE16(b, pos)))
    else Reading(ichan, F32, UnitAt(units, dtidx), Payload32(BE32(b, pos)))
  }

  /** A housekeeping reading of the binary16 value at pos. */
  function HkReading(b: seq<byte>, pos: nat, ichan: int): Reading
    requires pos + 2 <= |b|
  {
    Reading(ichan, F16, Some(HkUnit(ichan)), Payload16(BE16(b, pos)))
  }

  /** The n readings of a standard run whose values start at pos, in the
      order the decoder pushes them: channels and unit indices count up. */
  function RunBlock(b: seq<byte>, pos: nat, ichan: int, dtidx: nat, n: nat, f16: bool, units: seq<Unit>): (rs: seq<Reading>)
    requires pos + RunLength(n, f16) <= |b|
    ensures |rs| == n
    decreases n
  {
    if n == 0 then []
    else RunBlock(b, pos, ichan, dtidx, n - 1, f16, units)
         + [StdReading(b, pos + RunLength(n - 1, f16), ichan + (n - 1), dtidx + (n - 1), f16, units)]
  }

  /** One more value of a run appends its reading at the end of the run. */
  lemma RunBlockPush(b: seq<byte>, pos: nat, ichan: int, dtidx: nat, n: nat, f16: bool, units: seq<Unit>)
    requires pos + RunLength(n + 1, f16) <= |b|
    ensures RunLength(n + 1, f16) == RunLength(n, f16) + Width(f16)
    ensures RunBlock(b, pos, ichan, dtidx, n + 1, f16, units)
         == RunBlock(b, pos, ichan, dtidx, n, f16, units)
            + [StdReading(b, pos + RunLength(n, f16), ichan + n, dtidx + n, f16, units)]
  {
  }

  /** The readings of the k low bits of an HK mask whose values start at pos:
      one per set bit, in the order the bits are scanned. */
  function HkBlock(b: seq<byte>, pos: nat, ichan: int, cbits: nat, k: nat): (rs: seq<Reading>)
    requires pos + 2 * Ones(cbits, k) <= |b|
    ensures |rs| == Ones(cbits, k)
    decreases k, cbits
  {
    if k == 0 then []
    else if cbits % 2 == 1 then [HkReading(b, pos, ichan)] + HkBlock(b, pos + 2, ichan + 1, cbits / 2, k - 1)
    else HkBlock(b, pos, ichan + 1, cbits / 2, k - 1)
  }

  /** One bit of the HK scan, from (pos, ichan, cbits, k) to (pos', ichan',
      cbits', k'): the readings made so far, extended by the reading of a
      set bit, followed by the rest of the scan, are the readings made
      before it followed by the whole scan. */
  lemma HkBlockStep(b: seq<byte>, pos: nat, ichan: int, cbits: nat, k: nat, before: seq<Reading>,
                    pos': nat, ichan': int, cbits': nat, k': nat, after: seq<Reading>)
    requires k > 0 && pos + 2 * Ones(cbits, k) <= |b|
    requires pos' == pos + 2 * (cbits % 2) && ichan' == ichan + 1 && cbits' == cbits / 2 && k' == k - 1
    requires after == before + (if cbits % 2 == 1 then [HkReading(b, pos, ichan)] else [])
    ensures pos' + 2 * Ones(cbits', k') <= |b|
    ensures after + HkBlock(b, pos', ichan', cbits', k') == before + HkBlock(b, pos, ichan, cbits, k)
  {
    var rest := HkBlock(b, pos', ichan', cbits', k');
    if cbits % 2 == 1 {
      assert after + rest == before + ([HkReading(b, pos, ichan)] + rest);
    } else {
      assert after == before;
    }
  }

  /** What a token byte announces. */
  datatype Token =
    | JumpTok                       // count 0: one byte with the new channel
    | RunTok(count: nat, f16: bool) // count values of one width
    | HkTok(mask: nat)              // one binary16 value per set mask bit

  /** Bits 0..5 are the count and bit 6 the width of a standard token;
      bit 7 marks a housekeeping token whose low 7 bits are the mask. */
  function TokenOf(tok: byte): (t: Token)
    ensures t.RunTok? ==> 0 < t.count < 64
    ensures t.HkTok? ==> t.mask < 128
  {
    if tok >= 128 then HkTok(tok % 128)
    else if tok % 64 == 0 then JumpTok
    else RunTok(tok % 64, tok / 64 % 2 == 1)
  }

  /** A token a sender can write: a run of 1..63 values, or a 7-bit mask. */
  predicate ValidToken(t: Token)
  {
    match t
    case JumpTok => true
    case RunTok(count, _) => 0 < count < 64
    case HkTok(mask) => mask < 128
  }

  /** The byte a sender writes for a token: the count in bits 0..5 and the
      width in bit 6, or bit 7 and the mask; a jump is written as 0. */
  function TokenByte(t: Token): byte
    requires ValidToken(t)
  {
    match t
    case JumpTok => 0
    case RunTok(count, f16) => (if f16 then 64 else 0) + count
    case HkTok(mask) => 128 + mask
  }

  /** Every token a sender can write is read back as itself. */
  lemma ParseTokenByte(t: Token)
    requires ValidToken(t)
    ensures TokenOf(TokenByte(t)) == t
  {
    match t
    case JumpTok =>
    case RunTok(count, f16) =>
      var tok := TokenByte(t);
      DivModUnique(tok, 64, if f16 then 1 else 0, count);
    case HkTok(mask) =>
  }

  /** The other direction: TokenOf keeps every bit of the byte except bit 6
      of a jump, which the decoder ignores. */
  lemma TokenByteOf(tok: byte)
    ensures ValidToken(TokenOf(tok))
    ensures TokenByte(TokenOf(tok)) == if tok < 128 && tok % 64 == 0 then 0 else tok
  {
    if tok < 128 && tok % 64 != 0 {
      assert tok == 64 * (tok / 64) + tok % 64;
      assert tok / 64 % 2 == tok / 64;
    }
  }

  /** Bytes that follow the token byte. */
  function TokenSize(t: Token): nat
  {
    match t
    case JumpTok => 1
    case RunTok(count, f16) => RunLength(count, f16)
    case HkTok(mask) => 2 * Ones(mask, 7)
  }

  /** The error for a token whose bytes run past the end of the frame. */
  function TokenError(t: Token): FormatError
  {
    match t
    case JumpTok => TruncatedJump
    case RunTok(_, f16) => TruncatedRun(f16)
    case HkTok(_) => TruncatedHK
  }

  /** Housekeeping channels start at 90 at the lowest. */
  function HkStart(ichan: nat): nat
  {
    if ichan < 90 then 90 else ichan
  }

  /** The channel cursor after a run or housekeeping token. */
  function NextChan(t: Token, ichan: nat): nat
  {
    match t
    case JumpTok => ichan
    case RunTok(count, _) => ichan + count
    case HkTok(_) => HkStart(ichan) + 7
  }

  /** Only standard readings move the unit index. */
  function NextUnit(t: Token, dtidx: nat): nat
  {
    match t
    case RunTok(count, _) => dtidx + count
    case _ => dtidx
  }

  /** The readings of a run or housekeeping token whose bytes fit. */
  function TokenReadings(b: seq<byte>, pos: nat, t: Token, ichan: nat, dtidx: nat, units: seq<Unit>): seq<Reading>
    requires pos + 1 + TokenSize(t) <= |b|
  {
    match t
    case JumpTok => []
    case RunTok(count, f16) => RunBlock(b, pos + 1, ichan, dtidx, count, f16, units)
    case HkTok(mask) => HkBlock(b, pos + 1, HkStart(ichan), mask, 7)
  }

  /** What a run token that fits reads, and where it leaves the channel
      and unit cursors. */
  lemma RunReadings(b: seq<byte>, pos: nat, t: Token, ichan: nat, dtidx: nat, units: seq<Unit>)
    requires t.RunTok? && pos + 1 + TokenSize(t) <= |b|
    ensures pos + 1 + RunLength(t.count, t.f16) <= |b|
    ensures TokenReadings(b, pos, t, ichan, dtidx, units) == RunBlock(b, pos + 1, ichan, dtidx, t.count, t.f16, units)
    ensures NextChan(t, ichan) == ichan + t.count && NextUnit(t, dtidx) == dtidx + t.count
  {
  }

  /** What a housekeeping token that fits reads, and where it leaves the
      channel and unit cursors. */
  lemma HkReadings(b: seq<byte>, pos: nat, t: Token, ichan: nat, dtidx: nat, units: seq<Unit>)
    requires t.HkTok? && pos + 1 + TokenSize(t) <= |b|
    ensures pos + 1 + 2 * Ones(t.mask, 7) <= |b|
    ensures TokenReadings(b, pos, t, ichan, dtidx, units) == HkBlock(b, pos + 1, HkStart(ichan), t.mask, 7)
    ensures NextChan(t, ichan) == HkStart(ichan) + 7 && NextUnit(t, dtidx) == dtidx
  {
  }

  /** The readings of the token stream from the token at pos on, with the
      channel cursor at ichan and dtidx standard readings already made.
      A new token is read only while bytes remain and ichan < 128. */
  function Tokens(b: seq<byte>, pos: nat, ichan: nat, dtidx: nat, units: seq<Unit>): Outcome
    requires pos <= |b|
    decreases |b| - pos
  {
    if pos == |b| || ichan >= 128 then Ok([])
    else
      var t := TokenOf(b[pos]);
      if pos + 1 + TokenSize(t) > |b| then Err(TokenError(t))
      else if t.JumpTok? then Ok([])
      else Then(TokenReadings(b, pos, t, ichan, dtidx, units),
                Tokens(b, pos + 1 + TokenSize(t), NextChan(t, ichan), NextUnit(t, dtidx), units))
  }

  function WithHeader(header: Header, o: Outcome): Result<Decoded, FormatError>
  {
    match o
    case Ok(chans) => Ok(Decoded(header, chans))
    case Err(e) => Err(e)
  }

  /** What the decoder returns for a frame and a port. */
  function DecoderSpec(bytes: seq<byte>, port: int): Result<Decoded, FormatError>
  {
    if |bytes| < 1 then Err(EmptyPayload)
    else if port < 1 || port > 199 then Err(UnknownPort(port))
    else WithHeader(ParseHeader(bytes[0]), Tokens(bytes, 1, 0, 0, PortUnits(port)))
  }

  /** A decoded frame is a frame of at least one byte on a known port whose
      token stream, read from byte 1, succeeds. */
  lemma SpecTokens(bytes: seq<byte>, port: int)
    requires DecoderSpec(bytes, port).Ok?
    ensures |bytes| >= 1 && 1 <= port <= 199
    ensures Tokens(bytes, 1, 0, 0, PortUnits(port)) == Ok(DecoderSpec(bytes, port).value.chans)
  {
  }

  /** The token loop as the decoder runs it: readings are appended to acc
      token by token, and the first truncation discards them all. */
  function Walk(b: seq<byte>, pos: nat, ichan: nat, dtidx: nat, units: seq<Unit>, acc: seq<Reading>): Outcome
    requires pos <= |b|
    decreases |b| - pos
  {
    if pos == |b| || ichan >= 128 then Ok(acc)
    else
      var t := TokenOf(b[pos]);
      if pos + 1 + TokenSize(t) > |b| then Err(TokenError(t))
      else if t.JumpTok? then Ok(acc)
      else Walk(b, pos + 1 + TokenSize(t), NextChan(t, ichan), NextUnit(t, dtidx), units,
                acc + TokenReadings(b, pos, t, ichan, dtidx, units))
  }

  /** One step of the walk: the token at pos fails it, ends it, or appends
      its readings and hands over to the next token. */
  lemma WalkStep(b: seq<byte>, pos: nat, ichan: nat, dtidx: nat, units: seq<Unit>, acc: seq<Reading>)
    requires pos < |b| && ichan < 128
    ensures var t := TokenOf(b[pos]);
      Walk(b, pos, ichan, dtidx, units, acc)
      == if pos + 1 + TokenSize(t) > |b| then Err(TokenError(t))
         else if t.JumpTok? then Ok(acc)
         else Walk(b, pos + 1 + TokenSize(t), NextChan(t, ichan), NextUnit(t, dtidx), units,
                   acc + TokenReadings(b, pos, t, ichan, dtidx, units))
  {
  }

  /** The loop's accumulated walk and the token-by-token definition agree:
      walking from any point with readings acc already made yields acc
      followed by what the remaining tokens yield. */
  lemma {:induction false} WalkIsTokens(b: seq<byte>, pos: nat, ichan: nat, dtidx: nat, units: seq<Unit>, acc: seq<Reading>)
    requires pos <= |b|
    ensures Walk(b, pos, ichan, dtidx, units, acc) == Then(acc, Tokens(b, pos, ichan, dtidx, units))
    decreases |b| - pos
  {
    if pos == |b| || ichan >= 128 {
      assert acc + [] == acc;
    } else {
      var t := TokenOf(b[pos]);
      if pos + 1 + TokenSize(t) > |b| {
      } else if t.JumpTok? {
        assert acc + [] == acc;
      } else {
        var next := pos + 1 + TokenSize(t);
        var block := TokenReadings(b, pos, t, ichan, dtidx, units);
        var rest := Tokens(b, next, NextChan(t, ichan), NextUnit(t, dtidx), units);
        TokensNext(b, pos, ichan, dtidx, units);
        WalkNext(b, pos, ichan, dtidx, units, acc);
        WalkIsTokens(b, next, NextChan(t, ichan), NextUnit(t, dtidx), units, acc + block);
        ThenThen(acc, block, rest);
      }
    }
  }

  /** Where the token stream makes no readings: at the end of the frame,
      past channel 127, at a truncated token, or at a channel jump. */
  lemma TokensStop(b: seq<byte>, pos: nat, ichan: nat, dtidx: nat, units: seq<Unit>)
    requires pos <= |b|
    requires pos < |b| && ichan < 128 ==>
      pos + 1 + TokenSize(TokenOf(b[pos])) > |b| || TokenOf(b[pos]).JumpTok?
    ensures Tokens(b, pos, ichan, dtidx, units) == Ok([]) || Tokens(b, pos, ichan, dtidx, units).Err?
  {
  }

  /** A run or housekeeping token that fits: the token stream puts its
      readings in front of what the next token yields. */
  lemma TokensNext(b: seq<byte>, pos: nat, ichan: nat, dtidx: nat, units: seq<Unit>)
    requires pos < |b| && ichan < 128
    requires pos + 1 + TokenSize(TokenOf(b[pos])) <= |b| && !TokenOf(b[pos]).JumpTok?
    ensures var t := TokenOf(b[pos]);
      Tokens(b, pos, ichan, dtidx, units)
      == Then(TokenReadings(b, pos, t, ichan, dtidx, units),
              Tokens(b, pos + 1 + TokenSize(t), NextChan(t, ichan), NextUnit(t, dtidx), units))
  {
  }

  /** The same token in the walk: it carries its readings over to the next
      token. */
  lemma WalkNext(b: seq<byte>, pos: nat, ichan: nat, dtidx: nat, units: seq<Unit>, acc: seq<Reading>)
    requires pos < |b| && ichan < 128
    requires pos + 1 + TokenSize(TokenOf(b[pos])) <= |b| && !TokenOf(b[pos]).JumpTok?
    ensures var t := TokenOf(b[pos]);
      Walk(b, pos, ichan, dtidx, units, acc)
      == Walk(b, pos + 1 + TokenSize(t), NextChan(t, ichan), NextUnit(t, dtidx), units,
              acc + TokenReadings(b, pos, t, ichan, dtidx, units))
  {
  }

  lemma ThenEmpty(o: Outcome)
    ensures Then([], o) == o
  {
    match o
    case Ok(rest) => assert [] + rest == rest;
    case Err(_) =>
  }

  lemma ThenThen(a: seq<Reading>, b: seq<Reading>, o: Outcome)
    ensures Then(a, Then(b, o)) == Then(a + b, o)
  {
    match o
    case Ok(rest) => assert a + (b + rest) == a + b + rest;
    case Err(_) =>
  }
}
