/** The LTX uplink decoder as the cursor walk it is: `cursor` and `ianz`
    (bytes left) move together over the frame, `ichan` and `dtidx` count
    channels and standard readings, and readings are pushed onto `chans`.
    Each method is proved to compute what LtxSpec describes. */
module LtxDecoder {
  import opened Wrappers
  import opened Words
  import opened LtxTables
  import opened LtxValue
  import opened LtxHeader
  import opened LtxSpec

  /** One value of a standard run: none when fewer bytes are left than its
      width, otherwise the reading of the value at the cursor with the unit
      the profile gives to the dtidx-th standard reading. */
  method ReadStd(bytes: seq<byte>, cursor: nat, ianz: int, ichan: nat, dtidx: nat, f16: bool, typeunits: seq<Unit>)
    returns (puob: Option<Reading>)
    requires cursor <= |bytes| && cursor + ianz == |bytes|
    ensures puob.None? <==> cursor + Width(f16) > |bytes|
    ensures puob.Some? ==> puob.value == StdReading(bytes, cursor, ichan, dtidx, f16, typeunits)
  {
    var unit := if |typeunits| > 0 then Some(typeunits[dtidx % |typeunits|]) else None;
    if |typeunits| > 0 { CycleIsMod(typeunits, dtidx); }
    if !f16 {
      if ianz < 4 { return None; }
      return Some(Reading(ichan, F32, unit, Payload32(BE32(bytes, cursor))));
    } else {
      if ianz < 2 { return None; }
      return Some(Reading(ichan, F16, unit, Payload16(BE16(bytes, cursor))));
    }
  }

  /** The values of one standard run token (the inner `while (cmanz-- > 0)`
      loop): it fails exactly when the frame is too short for all `count`
      values, and otherwise returns their readings and advances the cursor,
      the channel and the unit index by the run. */
  method ReadRun(bytes: seq<byte>, cursor0: nat, ianz0: int, ichan0: nat, dtidx0: nat,
                 count: nat, f16: bool, typeunits: seq<Unit>)
    returns (err: Option<FormatError>, cursor: nat, ianz: int, ichan: nat, dtidx: nat, run: seq<Reading>)
    requires cursor0 <= |bytes| && cursor0 + ianz0 == |bytes|
    ensures err.None? <==> cursor0 + RunLength(count, f16) <= |bytes|
    ensures err.Some? ==> err.value == TruncatedRun(f16)
    ensures err.None? ==>
      && cursor == cursor0 + RunLength(count, f16) && cursor + ianz == |bytes|
      && ichan == ichan0 + count && dtidx == dtidx0 + count
      && run == RunBlock(bytes, cursor0, ichan0, dtidx0, count, f16, typeunits)
  {
    cursor, ianz, ichan, dtidx, run := cursor0, ianz0, ichan0, dtidx0, [];
    var cmanz: nat := count;
    ghost var done: nat := 0;
    while cmanz > 0
      invariant done + cmanz == count
      invariant cursor == cursor0 + RunLength(done, f16) <= |bytes|
      invariant cursor + ianz == |bytes|
      invariant ichan == ichan0 + done && dtidx == dtidx0 + done
      invariant run == RunBlock(bytes, cursor0, ichan0, dtidx0, done, f16, typeunits)
    {
      cmanz := cmanz - 1;
      var puob := ReadStd(bytes, cursor, ianz, ichan, dtidx, f16, typeunits);
      if puob.None? { return Some(TruncatedRun(f16)), cursor, ianz, ichan, dtidx, run; }
      RunBlockPush(bytes, cursor0, ichan0, dtidx0, done, f16, typeunits);
      run := run + [puob.value];
      cursor, ianz := cursor + Width(f16), ianz - Width(f16);
      dtidx := dtidx + 1;
      ichan := ichan + 1;
      done := done + 1;
    }
    err := None;
  }

  /** One bit of the housekeeping mask: a set bit needs two more bytes and
      appends the HK reading of the binary16 value at the cursor; a clear
      bit reads nothing. */
  method ReadHkBit(bytes: seq<byte>, cursor0: nat, ianz0: int, ichan: nat, cbits: nat, chans0: seq<Reading>)
    returns (ok: bool, cursor: nat, ianz: int, chans: seq<Reading>)
    requires cursor0 <= |bytes| && cursor0 + ianz0 == |bytes|
    ensures !ok <==> cbits % 2 == 1 && cursor0 + 2 > |bytes|
    ensures ok ==>
      && cursor == cursor0 + 2 * (cbits % 2) && cursor + ianz == |bytes|
      && chans == chans0 + (if cbits % 2 == 1 then [HkReading(bytes, cursor0, ichan)] else [])
  {
    cursor, ianz, chans := cursor0, ianz0, chans0;
    if cbits % 2 == 1 {
      if ianz < 2 { return false, cursor, ianz, chans; }
      chans := chans + [Reading(ichan, F16, Some(HkUnit(ichan)), Payload16(BE16(bytes, cursor)))];
      cursor, ianz := cursor + 2, ianz - 2;
    }
    ok := true;
  }

  /** The values of one housekeeping token (the `for` loop over the 7 mask
      bits): it fails exactly when the frame is too short for one value
      per set bit, and otherwise returns their readings, advances the
      cursor by two bytes per set bit and the channel by 7. */
  method ReadHkBlock(bytes: seq<byte>, cursor0: nat, ianz0: int, ichan0: nat, mask: nat)
    returns (err: Option<FormatError>, cursor: nat, ianz: int, ichan: nat, block: seq<Reading>)
    requires cursor0 <= |bytes| && cursor0 + ianz0 == |bytes|
    ensures err.None? <==> cursor0 + 2 * Ones(mask, 7) <= |bytes|
    ensures err.Some? ==> err.value == TruncatedHK
    ensures err.None? ==>
      && cursor == cursor0 + 2 * Ones(mask, 7) && cursor + ianz == |bytes|
      && ichan == ichan0 + 7
      && block == HkBlock(bytes, cursor0, ichan0, mask, 7)
  {
    cursor, ianz, ichan, block := cursor0, ianz0, ichan0, [];
    ghost var fits := cursor0 + 2 * Ones(mask, 7) <= |bytes|;
    var cbits: nat := mask;
    var i: nat := 0;
    ghost var spent: nat := 0;
    while i < 7
      invariant i <= 7
      invariant cursor + ianz == |bytes| && cursor <= |bytes|
      invariant ichan == ichan0 + i
      invariant cursor == cursor0 + 2 * spent && spent + Ones(cbits, 7 - i) == Ones(mask, 7)
      invariant fits ==> block + HkBlock(bytes, cursor, ichan, cbits, 7 - i) == HkBlock(bytes, cursor0, ichan0, mask, 7)
    {
      ghost var before, pos, ichan1, bits, left := block, cursor, ichan, cbits, 7 - i;
      var ok;
      ok, cursor, ianz, block := ReadHkBit(bytes, cursor, ianz, ichan, cbits, block);
      if !ok { return Some(TruncatedHK), cursor, ianz, ichan, block; }
      ichan := ichan + 1;
      cbits := cbits / 2;
      i := i + 1;
      spent := spent + bits % 2;
      OnesShift(bits, left, cbits, 7 - i);
      if fits { HkBlockStep(bytes, pos, ichan1, bits, left, before, cursor, ichan, cbits, 7 - i, block); }
    }
    assert block + [] == block;
    err := None;
  }

  /** How one pass of the token loop ends: on to the next token, a channel
      jump that ends the loop, or one of the errors that end the decode. */
  datatype Step = Next | Jump | Failed(error: FormatError)

  /** One pass of the token loop: reads the token at cursor0 and its values.
      It fails exactly when the token's bytes run past the end of the frame,
      stops at a channel jump, and otherwise appends the token's readings
      and moves the cursor, the channel and the unit index past it. */
  method ReadToken(bytes: seq<byte>, cursor0: nat, ianz0: int, ichan0: nat, dtidx0: nat,
                   typeunits: seq<Unit>, chans0: seq<Reading>)
    returns (step: Step, cursor: nat, ianz: int, ichan: nat, dtidx: nat, chans: seq<Reading>)
    requires cursor0 < |bytes| && cursor0 + ianz0 == |bytes|
    ensures var t := TokenOf(bytes[cursor0]);
      && (step.Failed? <==> cursor0 + 1 + TokenSize(t) > |bytes|)
      && (step.Failed? ==> step.error == TokenError(t))
      && (step.Jump? <==> !step.Failed? && t.JumpTok?)
      && (step.Jump? ==> chans == chans0)
      && (step.Next? ==>
            && cursor == cursor0 + 1 + TokenSize(t) && cursor + ianz == |bytes|
            && ichan == NextChan(t, ichan0) && dtidx == NextUnit(t, dtidx0)
            && chans == chans0 + TokenReadings(bytes, cursor0, t, ichan0, dtidx0, typeunits))
  {
    cursor, ianz, ichan, dtidx, chans := cursor0, ianz0, ichan0, dtidx0, chans0;
    var itok := bytes[cursor];
    cursor, ianz := cursor + 1, ianz - 1;
    if itok < 128 {
      var cmanz := itok % 64;
      if cmanz == 0 {
        // channel jump: read the new channel, then stop
        if ianz < 1 { return Failed(TruncatedJump), cursor, ianz, ichan, dtidx, chans; }
        ichan := bytes[cursor];
        cursor, ianz := cursor + 1, ianz - 1;
        return Jump, cursor, ianz, ichan, dtidx, chans;
      }
      var f16 := itok / 64 % 2 == 1;
      assert TokenOf(itok) == RunTok(cmanz, f16);
      var err, run;
      err, cursor, ianz, ichan, dtidx, run := ReadRun(bytes, cursor, ianz, ichan, dtidx, cmanz, f16, typeunits);
      if err.Some? { return Failed(err.value), cursor, ianz, ichan, dtidx, chans; }
      chans := chans + run;
    } else {
      // housekeeping block, channels 90 and up
      assert TokenOf(itok) == HkTok(itok % 128);
      if ichan < 90 { ichan := 90; }
      assert ichan == HkStart(ichan0);
      var err, block;
      err, cursor, ianz, ichan, block := ReadHkBlock(bytes, cursor, ianz, ichan, itok % 128);
      if err.Some? { return Failed(err.value), cursor, ianz, ichan, dtidx, chans; }
      chans := chans + block;
    }
    step := Next;
  }

  /** Decoder: checks the frame and the port, parses the header, then walks
      the tokens until the bytes run out, ichan reaches 128 or a channel
      jump is read. */
  method Decoder(bytes: seq<byte>, port: int) returns (r: Result<Decoded, FormatError>)
    ensures r == DecoderSpec(bytes, port)
  {
    var ianz := |bytes|;
    if ianz < 1 { return Err(EmptyPayload); }
    if port < 1 || port > 199 { return Err(UnknownPort(port)); }
    var cursor := 0;
    var flags := bytes[cursor];
    cursor, ianz := cursor + 1, ianz - 1;
    var header := ParseHeader(flags);

    var ichan: nat := 0;
    var typeunits := PortUnits(port);
    var dtidx: nat := 0;
    var chans: seq<Reading> := [];
    ghost var goal := Walk(bytes, 1, 0, 0, typeunits, []);
    WalkIsTokens(bytes, 1, 0, 0, typeunits, []);
    ThenEmpty(Tokens(bytes, 1, 0, 0, typeunits));
    while ianz > 0 && ichan < 128
      invariant 1 <= cursor <= |bytes| && cursor + ianz == |bytes|
      invariant Walk(bytes, cursor, ichan, dtidx, typeunits, chans) == goal
      decreases ianz
    {
      var step;
      ghost var pos, ichan0, dtidx0, before := cursor, ichan, dtidx, chans;
      step, cursor, ianz, ichan, dtidx, chans := ReadToken(bytes, cursor, ianz, ichan, dtidx, typeunits, chans);
      WalkStep(bytes, pos, ichan0, dtidx0, typeunits, before);
      if step.Failed? { return Err(step.error); }
      if step.Jump? { return Ok(Decoded(header, chans)); }
    }
    return Ok(Decoded(header, chans));
  }

  /** decodeUplink: only fPort 1..199 reaches the decoder; any other port
      is reported by number. */
  method DecodeUplink(bytes: seq<byte>, fPort: int) returns (r: Result<Decoded, FormatError>)
    ensures 0 < fPort < 200 ==> r == DecoderSpec(bytes, fPort)
    ensures !(0 < fPort < 200) ==> r == Err(UnknownPort(fPort))
  {
    if 0 < fPort < 200 {
      r := Decoder(bytes, fPort);
    } else {
      r := Err(UnknownPort(fPort));
    }
  }
}
