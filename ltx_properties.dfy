/** What the LTX uplink decoder promises about every frame it accepts:
    channel numbers strictly increase, housekeeping readings carry the
    description of their channel, and the standard readings cycle through
    the port's unit profile in order. */
module LtxProperties {
  import opened Wrappers
  import opened Words
  import opened LtxTables
  import opened LtxValue
  import opened LtxHeader
  import opened LtxSpec

  /** Channel numbers strictly increase along the readings. */
  predicate Ascending(rs: seq<Reading>)
  {
    forall i, j :: 0 <= i < j < |rs| ==> rs[i].channel < rs[j].channel
  }

  /** Every channel number lies in lo..hi-1. */
  predicate ChannelsWithin(rs: seq<Reading>, lo: int, hi: int)
  {
    forall i :: 0 <= i < |rs| ==> lo <= rs[i].channel < hi
  }

  /** The i-th reading of a run is the value 2i or 4i bytes into the run,
      on channel ichan + i, with the unit of the (dtidx + i)-th standard
      reading. */
  lemma {:induction false} RunBlockAt(b: seq<byte>, pos: nat, ichan: int, dtidx: nat, n: nat, f16: bool, units: seq<Unit>, i: nat)
    requires pos + RunLength(n, f16) <= |b| && i < n
    ensures pos + RunLength(i, f16) + Width(f16) <= |b|
    ensures RunBlock(b, pos, ichan, dtidx, n, f16, units)[i]
         == StdReading(b, pos + RunLength(i, f16), ichan + i, dtidx + i, f16, units)
    decreases n
  {
    if i < n - 1 {
      RunBlockAt(b, pos, ichan, dtidx, n - 1, f16, units, i);
    }
  }

  /** A run occupies channels ichan .. ichan + n - 1, in that order, each
      reading with the run's precision and, for the (dtidx + i)-th standard
      reading, the unit the profile cycles to. */
  lemma RunBlockShape(b: seq<byte>, pos: nat, ichan: int, dtidx: nat, n: nat, f16: bool, units: seq<Unit>)
    requires pos + RunLength(n, f16) <= |b|
    ensures var rs := RunBlock(b, pos, ichan, dtidx, n, f16, units);
      forall i :: 0 <= i < n ==>
        && rs[i].channel == ichan + i
        && rs[i].prec == (if f16 then F16 else F32)
        && rs[i].unit == UnitAt(units, dtidx + i)
  {
    var rs := RunBlock(b, pos, ichan, dtidx, n, f16, units);
    forall i | 0 <= i < n
      ensures rs[i].channel == ichan + i
      ensures rs[i].prec == (if f16 then F16 else F32)
      ensures rs[i].unit == UnitAt(units, dtidx + i)
    {
      RunBlockAt(b, pos, ichan, dtidx, n, f16, units, i);
    }
  }

  /** Channels strictly increase and lie in lo..hi-1, stated element by
      element from the front: the form the token induction works with. */
  predicate Rising(rs: seq<Reading>, lo: int, hi: int)
    decreases |rs|
  {
    rs == [] || (lo <= rs[0].channel < hi && Rising(rs[1..], rs[0].channel + 1, hi))
  }

  /** Rising is Ascending together with ChannelsWithin. */
  lemma {:induction false} RisingIff(rs: seq<Reading>, lo: int, hi: int)
    ensures Rising(rs, lo, hi) <==> Ascending(rs) && ChannelsWithin(rs, lo, hi)
    decreases |rs|
  {
    if rs != [] {
      var tl := rs[1..];
      RisingIff(tl, rs[0].channel + 1, hi);
      if Ascending(rs) && ChannelsWithin(rs, lo, hi) {
        assert forall i :: 0 <= i < |tl| ==> tl[i] == rs[i + 1];
        assert forall i :: 0 <= i < |tl| ==> rs[0].channel < tl[i].channel;
      }
      if Rising(rs, lo, hi) {
        forall i, j | 0 <= i < j < |rs| ensures rs[i].channel < rs[j].channel {
          if i > 0 { assert rs[i] == tl[i - 1]; }
          assert rs[j] == tl[j - 1];
        }
        forall i | 0 <= i < |rs| ensures lo <= rs[i].channel < hi {
          if i > 0 { assert rs[i] == tl[i - 1]; }
        }
      }
    }
  }

  lemma {:induction false} RisingWeaken(rs: seq<Reading>, lo: int, lo': int, hi: int, hi': int)
    requires lo <= lo' && hi' <= hi && Rising(rs, lo', hi')
    ensures Rising(rs, lo, hi)
    decreases |rs|
  {
    if rs != [] {
      RisingWeaken(rs[1..], rs[0].channel + 1, rs[0].channel + 1, hi, hi');
    }
  }

  /** Two rising stretches, the second starting where the first must end,
      rise together. */
  lemma {:induction false} RisingAppend(a: seq<Reading>, b: seq<Reading>, lo: int, mid: int, hi: int)
    requires Rising(a, lo, mid) && Rising(b, mid, hi) && lo <= mid <= hi
    ensures Rising(a + b, lo, hi)
    decreases |a|
  {
    if a == [] {
      assert a + b == b;
      RisingWeaken(b, lo, mid, hi, hi);
    } else {
      assert (a + b)[0] == a[0];
      assert (a + b)[1..] == a[1..] + b;
      RisingAppend(a[1..], b, a[0].channel + 1, mid, hi);
    }
  }

  /** A run rises from ichan to below ichan + n. */
  lemma {:induction false} RunRising(b: seq<byte>, pos: nat, ichan: int, dtidx: nat, n: nat, f16: bool, units: seq<Unit>)
    requires pos + RunLength(n, f16) <= |b|
    ensures Rising(RunBlock(b, pos, ichan, dtidx, n, f16, units), ichan, ichan + n)
    decreases n
  {
    if n > 0 {
      var front := RunBlock(b, pos, ichan, dtidx, n - 1, f16, units);
      var last := [StdReading(b, pos + RunLength(n - 1, f16), ichan + (n - 1), dtidx + (n - 1), f16, units)];
      RunRising(b, pos, ichan, dtidx, n - 1, f16, units);
      assert Rising(last[1..], ichan + n, ichan + n);
      RisingAppend(front, last, ichan, ichan + (n - 1), ichan + n);
    }
  }

  /** The readings of an HK scan of k bits from channel ichan on rise from
      any lo <= ichan to below ichan + k. */
  lemma {:induction false} HkRising(b: seq<byte>, pos: nat, lo: int, ichan: int, cbits: nat, k: nat)
    requires pos + 2 * Ones(cbits, k) <= |b| && lo <= ichan
    ensures Rising(HkBlock(b, pos, ichan, cbits, k), lo, ichan + k)
    decreases k
  {
    if k > 0 {
      var pos' := pos + 2 * (cbits % 2);
      var rest := HkBlock(b, pos', ichan + 1, cbits / 2, k - 1);
      if cbits % 2 == 1 {
        HkRising(b, pos', ichan + 1, ichan + 1, cbits / 2, k - 1);
        assert ([HkReading(b, pos, ichan)] + rest)[1..] == rest;
      } else {
        HkRising(b, pos', lo, ichan + 1, cbits / 2, k - 1);
      }
    }
  }

  /** The i-th reading of an HK scan lies on a channel ichan + j whose mask
      bit j is set. */
  lemma {:induction false} HkBitAt(b: seq<byte>, pos: nat, ichan: int, cbits: nat, k: nat, i: nat)
    requires pos + 2 * Ones(cbits, k) <= |b| && i < |HkBlock(b, pos, ichan, cbits, k)|
    ensures var r := HkBlock(b, pos, ichan, cbits, k)[i];
      ichan <= r.channel < ichan + k && BitSet(cbits, r.channel - ichan)
    decreases k
  {
    var rs := HkBlock(b, pos, ichan, cbits, k);
    var pos' := pos + 2 * (cbits % 2);
    var rest := HkBlock(b, pos', ichan + 1, cbits / 2, k - 1);
    if cbits % 2 == 1 {
      if i > 0 {
        HkBitAt(b, pos', ichan + 1, cbits / 2, k - 1, i - 1);
        assert rs[i] == rest[i - 1];
      }
    } else {
      HkBitAt(b, pos', ichan + 1, cbits / 2, k - 1, i);
    }
  }

  /** The i-th reading of an HK scan is the binary16 value 2i bytes in:
      values follow each other with no gap, whichever bits are clear. */
  lemma {:induction false} HkValueAt(b: seq<byte>, pos: nat, ichan: int, cbits: nat, k: nat, i: nat)
    requires pos + 2 * Ones(cbits, k) <= |b| && i < |HkBlock(b, pos, ichan, cbits, k)|
    ensures pos + 2 * i + 2 <= |b|
    ensures var r := HkBlock(b, pos, ichan, cbits, k)[i];
      r == HkReading(b, pos + 2 * i, r.channel)
    decreases k
  {
    var rs := HkBlock(b, pos, ichan, cbits, k);
    var pos' := pos + 2 * (cbits % 2);
    var rest := HkBlock(b, pos', ichan + 1, cbits / 2, k - 1);
    if cbits % 2 == 1 {
      if i > 0 {
        HkValueAt(b, pos', ichan + 1, cbits / 2, k - 1, i - 1);
        assert rs[i] == rest[i - 1];
      }
    } else {
      HkValueAt(b, pos', ichan + 1, cbits / 2, k - 1, i);
    }
  }

  /** Each reading of an HK scan lies on a channel ichan + j whose mask bit
      j is set. */
  lemma HkBlockBits(b: seq<byte>, pos: nat, ichan: int, cbits: nat, k: nat)
    requires pos + 2 * Ones(cbits, k) <= |b|
    ensures var rs := HkBlock(b, pos, ichan, cbits, k);
      forall i :: 0 <= i < |rs| ==> ichan <= rs[i].channel < ichan + k && BitSet(cbits, rs[i].channel - ichan)
  {
    var rs := HkBlock(b, pos, ichan, cbits, k);
    forall i | 0 <= i < |rs| ensures ichan <= rs[i].channel < ichan + k && BitSet(cbits, rs[i].channel - ichan) {
      HkBitAt(b, pos, ichan, cbits, k, i);
    }
  }

  /** Every set bit of the scanned mask yields a reading on its channel:
      with HkBlockBits, the channels of an HK scan are exactly ichan plus
      the positions of the set bits. */
  lemma {:induction false} HkBlockComplete(b: seq<byte>, pos: nat, ichan: int, cbits: nat, k: nat, j: nat)
    requires pos + 2 * Ones(cbits, k) <= |b|
    requires j < k && BitSet(cbits, j)
    ensures exists i :: 0 <= i < |HkBlock(b, pos, ichan, cbits, k)|
                     && HkBlock(b, pos, ichan, cbits, k)[i].channel == ichan + j
    decreases k
  {
    var rs := HkBlock(b, pos, ichan, cbits, k);
    if j == 0 {
      assert rs[0].channel == ichan;
    } else {
      var pos' := pos + 2 * (cbits % 2);
      var rest := HkBlock(b, pos', ichan + 1, cbits / 2, k - 1);
      HkBlockComplete(b, pos', ichan + 1, cbits / 2, k - 1, j - 1);
      var i :| 0 <= i < |rest| && rest[i].channel == ichan + 1 + (j - 1);
      var d := |rs| - |rest|;
      assert rs[d + i] == rest[i];
    }
  }

  /** An HK token yields as many readings as its 7-bit mask has set bits. */
  lemma HkReadingCount(b: seq<byte>, pos: nat, ichan: int, mask: nat)
    requires pos + 2 * Ones(mask, 7) <= |b|
    ensures |HkBlock(b, pos, ichan, mask, 7)| == |BitsBelow(mask, 7)|
  {
    OnesIsPopCount(mask, 7);
  }

  /** A run token's readings rise from ichan to below the channel after
      it. */
  lemma RunTokRising(b: seq<byte>, pos: nat, t: Token, ichan: nat, dtidx: nat, units: seq<Unit>)
    requires t.RunTok? && pos + 1 + TokenSize(t) <= |b|
    ensures Rising(TokenReadings(b, pos, t, ichan, dtidx, units), ichan, NextChan(t, ichan))
  {
    RunReadings(b, pos, t, ichan, dtidx, units);
    RunRising(b, pos + 1, ichan, dtidx, t.count, t.f16, units);
  }

  /** A housekeeping token's readings rise from ichan to below the channel
      after it. */
  lemma HkTokRising(b: seq<byte>, pos: nat, t: Token, ichan: nat, dtidx: nat, units: seq<Unit>)
    requires t.HkTok? && pos + 1 + TokenSize(t) <= |b|
    ensures Rising(TokenReadings(b, pos, t, ichan, dtidx, units), ichan, NextChan(t, ichan))
  {
    HkReadings(b, pos, t, ichan, dtidx, units);
    HkRising(b, pos + 1, ichan, HkStart(ichan), t.mask, 7);
  }

  /** The readings of one run or housekeeping token read while ichan < 128
      rise from ichan to below the channel after the token, which is at
      most 190. */
  lemma BlockRising(b: seq<byte>, pos: nat, t: Token, ichan: nat, dtidx: nat, units: seq<Unit>)
    requires pos + 1 + TokenSize(t) <= |b| && !t.JumpTok? && ichan < 128
    requires t.RunTok? ==> t.count < 64
    ensures ichan <= NextChan(t, ichan) <= 190
    ensures Rising(TokenReadings(b, pos, t, ichan, dtidx, units), ichan, NextChan(t, ichan))
  {
    if t.RunTok? {
      RunTokRising(b, pos, t, ichan, dtidx, units);
    } else {
      HkTokRising(b, pos, t, ichan, dtidx, units);
    }
  }

  /** Readings that rise up to mid followed by an outcome whose readings
      rise from mid on. */
  lemma ThenRising(block: seq<Reading>, o: Outcome, lo: int, mid: int, hi: int)
    requires Rising(block, lo, mid) && lo <= mid <= hi
    requires o.Ok? ==> Rising(o.value, mid, hi)
    ensures Then(block, o).Ok? ==> Rising(Then(block, o).value, lo, hi)
  {
    if o.Ok? {
      RisingAppend(block, o.value, lo, mid, hi);
    }
  }

  /** The readings made from the token at pos on rise from ichan and stay
      below 190. Channels above 127 do occur: the loop only tests
      ichan < 128 before a token, so a run that starts at channel 127 goes
      on to 189 at most. */
  lemma {:induction false} TokensRising(b: seq<byte>, pos: nat, ichan: nat, dtidx: nat, units: seq<Unit>)
    requires pos <= |b|
    ensures Tokens(b, pos, ichan, dtidx, units).Ok? ==> Rising(Tokens(b, pos, ichan, dtidx, units).value, ichan, 190)
    decreases |b| - pos
  {
    if pos < |b| && ichan < 128 && pos + 1 + TokenSize(TokenOf(b[pos])) <= |b| && !TokenOf(b[pos]).JumpTok? {
      var t := TokenOf(b[pos]);
      var next := pos + 1 + TokenSize(t);
      TokensNext(b, pos, ichan, dtidx, units);
      TokensRising(b, next, NextChan(t, ichan), NextUnit(t, dtidx), units);
      BlockRising(b, pos, t, ichan, dtidx, units);
      ThenRising(TokenReadings(b, pos, t, ichan, dtidx, units), Tokens(b, next, NextChan(t, ichan), NextUnit(t, dtidx), units),
                 ichan, NextChan(t, ichan), 190);
    } else {
      TokensStop(b, pos, ichan, dtidx, units);
    }
  }

  /** A housekeeping reading: one whose unit is a channel description. */
  predicate IsHkReading(r: Reading)
  {
    r.unit.Some? && IsHk(r.unit.value)
  }

  /** The standard readings among rs, in order. */
  function StdOnly(rs: seq<Reading>): (std: seq<Reading>)
    ensures |std| <= |rs|
  {
    if rs == [] then []
    else if IsHkReading(rs[0]) then StdOnly(rs[1..])
    else [rs[0]] + StdOnly(rs[1..])
  }

  lemma {:induction false} StdOnlyAppend(a: seq<Reading>, b: seq<Reading>)
    ensures StdOnly(a + b) == StdOnly(a) + StdOnly(b)
    decreases |a|
  {
    if a != [] {
      assert (a + b)[1..] == a[1..] + b;
      StdOnlyAppend(a[1..], b);
    } else {
      assert a + b == b;
    }
  }

  /** The readings, taken in order from the front, carry the units of the
      d-th, (d + 1)-th, ... standard reading. */
  predicate UnitsFrom(rs: seq<Reading>, units: seq<Unit>, d: nat)
    decreases |rs|
  {
    rs == [] || (rs[0].unit == UnitAt(units, d) && UnitsFrom(rs[1..], units, d + 1))
  }

  lemma {:induction false} UnitsFromIff(rs: seq<Reading>, units: seq<Unit>, d: nat)
    ensures UnitsFrom(rs, units, d) <==> forall k :: 0 <= k < |rs| ==> rs[k].unit == UnitAt(units, d + k)
    decreases |rs|
  {
    if rs != [] {
      var tl := rs[1..];
      UnitsFromIff(tl, units, d + 1);
      assert forall k :: 0 <= k < |tl| ==> tl[k] == rs[k + 1];
      if UnitsFrom(rs, units, d) {
        forall k | 0 <= k < |rs| ensures rs[k].unit == UnitAt(units, d + k) {
          if k > 0 { assert rs[k] == tl[k - 1]; }
        }
      }
    }
  }

  lemma {:induction false} UnitsFromAppend(a: seq<Reading>, b: seq<Reading>, units: seq<Unit>, d: nat)
    requires UnitsFrom(a, units, d) && UnitsFrom(b, units, d + |a|)
    ensures UnitsFrom(a + b, units, d)
    decreases |a|
  {
    if a == [] {
      assert a + b == b;
    } else {
      assert (a + b)[1..] == a[1..] + b;
      UnitsFromAppend(a[1..], b, units, d + 1);
    }
  }

  /** Every housekeeping reading among rs is a binary16 value with the
      description of its own channel. */
  predicate HkDescribed(rs: seq<Reading>)
    decreases |rs|
  {
    rs == []
    || ((IsHkReading(rs[0]) ==> rs[0].prec == F16 && rs[0].unit == Some(HkUnit(rs[0].channel)))
        && HkDescribed(rs[1..]))
  }

  lemma {:induction false} HkDescribedIff(rs: seq<Reading>)
    ensures HkDescribed(rs) <==>
      forall i :: 0 <= i < |rs| && IsHkReading(rs[i]) ==> rs[i].prec == F16 && rs[i].unit == Some(HkUnit(rs[i].channel))
    decreases |rs|
  {
    if rs != [] {
      var tl := rs[1..];
      HkDescribedIff(tl);
      assert forall i :: 0 <= i < |tl| ==> tl[i] == rs[i + 1];
      if HkDescribed(rs) {
        forall i | 0 <= i < |rs| && IsHkReading(rs[i])
          ensures rs[i].prec == F16 && rs[i].unit == Some(HkUnit(rs[i].channel))
        {
          if i > 0 { assert rs[i] == tl[i - 1]; }
        }
      }
    }
  }

  lemma {:induction false} HkDescribedAppend(a: seq<Reading>, b: seq<Reading>)
    requires HkDescribed(a) && HkDescribed(b)
    ensures HkDescribed(a + b)
    decreases |a|
  {
    if a == [] {
      assert a + b == b;
    } else {
      assert (a + b)[1..] == a[1..] + b;
      HkDescribedAppend(a[1..], b);
    }
  }

  /** A profile without housekeeping units gives standard readings only. */
  lemma StdUnitNotHk(units: seq<Unit>, dtidx: nat)
    requires forall i :: 0 <= i < |units| ==> !IsHk(units[i])
    ensures UnitAt(units, dtidx).Some? ==> !IsHk(UnitAt(units, dtidx).value)
  {
    if |units| > 0 { CycleIsMod(units, dtidx); }
  }

  /** On a profile without housekeeping units, every reading of a run is a
      standard reading. */
  lemma {:induction false} RunStd(b: seq<byte>, pos: nat, ichan: int, dtidx: nat, n: nat, f16: bool, units: seq<Unit>)
    requires pos + RunLength(n, f16) <= |b|
    requires forall i :: 0 <= i < |units| ==> !IsHk(units[i])
    ensures StdOnly(RunBlock(b, pos, ichan, dtidx, n, f16, units)) == RunBlock(b, pos, ichan, dtidx, n, f16, units)
    decreases n
  {
    if n > 0 {
      var front := RunBlock(b, pos, ichan, dtidx, n - 1, f16, units);
      var r := StdReading(b, pos + RunLength(n - 1, f16), ichan + (n - 1), dtidx + (n - 1), f16, units);
      RunStd(b, pos, ichan, dtidx, n - 1, f16, units);
      StdUnitNotHk(units, dtidx + (n - 1));
      assert StdOnly([r]) == [r] by { assert [r][1..] == []; }
      StdOnlyAppend(front, [r]);
    }
  }

  /** The readings of a run carry the units of the dtidx-th, (dtidx + 1)-th,
      ... standard reading. */
  lemma {:induction false} RunUnitsFrom(b: seq<byte>, pos: nat, ichan: int, dtidx: nat, n: nat, f16: bool, units: seq<Unit>)
    requires pos + RunLength(n, f16) <= |b|
    ensures UnitsFrom(RunBlock(b, pos, ichan, dtidx, n, f16, units), units, dtidx)
    decreases n
  {
    if n > 0 {
      var front := RunBlock(b, pos, ichan, dtidx, n - 1, f16, units);
      var r := StdReading(b, pos + RunLength(n - 1, f16), ichan + (n - 1), dtidx + (n - 1), f16, units);
      RunUnitsFrom(b, pos, ichan, dtidx, n - 1, f16, units);
      assert UnitsFrom([r], units, dtidx + |front|) by { assert [r][1..] == []; }
      UnitsFromAppend(front, [r], units, dtidx);
    }
  }

  /** On a profile without housekeeping units, a run holds no housekeeping
      reading to describe. */
  lemma {:induction false} RunDescribed(b: seq<byte>, pos: nat, ichan: int, dtidx: nat, n: nat, f16: bool, units: seq<Unit>)
    requires pos + RunLength(n, f16) <= |b|
    requires forall i :: 0 <= i < |units| ==> !IsHk(units[i])
    ensures HkDescribed(RunBlock(b, pos, ichan, dtidx, n, f16, units))
    decreases n
  {
    if n > 0 {
      var front := RunBlock(b, pos, ichan, dtidx, n - 1, f16, units);
      var r := StdReading(b, pos + RunLength(n - 1, f16), ichan + (n - 1), dtidx + (n - 1), f16, units);
      RunDescribed(b, pos, ichan, dtidx, n - 1, f16, units);
      StdUnitNotHk(units, dtidx + (n - 1));
      assert HkDescribed([r]) by { assert [r][1..] == []; }
      HkDescribedAppend(front, [r]);
    }
  }

  /** An HK scan holds housekeeping readings only, each a binary16 value
      with the description of its channel. */
  lemma {:induction false} HkUnits(b: seq<byte>, pos: nat, ichan: int, cbits: nat, k: nat)
    requires pos + 2 * Ones(cbits, k) <= |b|
    ensures var rs := HkBlock(b, pos, ichan, cbits, k);
      StdOnly(rs) == [] && HkDescribed(rs)
    decreases k
  {
    if k > 0 {
      var pos' := pos + 2 * (cbits % 2);
      var rest := HkBlock(b, pos', ichan + 1, cbits / 2, k - 1);
      HkUnits(b, pos', ichan + 1, cbits / 2, k - 1);
      if cbits % 2 == 1 {
        var r := HkReading(b, pos, ichan);
        assert IsHkReading(r);
        assert ([r] + rest)[1..] == rest;
      }
    }
  }

  /** A run token on a profile without housekeeping units: all its readings
      are standard, carry the units from dtidx on, and need no description. */
  lemma RunTokUnits(b: seq<byte>, pos: nat, t: Token, ichan: nat, dtidx: nat, units: seq<Unit>)
    requires t.RunTok? && pos + 1 + TokenSize(t) <= |b|
    requires forall i :: 0 <= i < |units| ==> !IsHk(units[i])
    ensures var block := TokenReadings(b, pos, t, ichan, dtidx, units);
      UnitsOk(block, units, dtidx) && |StdOnly(block)| == NextUnit(t, dtidx) - dtidx
  {
    RunReadings(b, pos, t, ichan, dtidx, units);
    RunStd(b, pos + 1, ichan, dtidx, t.count, t.f16, units);
    RunUnitsFrom(b, pos + 1, ichan, dtidx, t.count, t.f16, units);
    RunDescribed(b, pos + 1, ichan, dtidx, t.count, t.f16, units);
  }

  /** A housekeeping token: no standard reading, each reading described. */
  lemma HkTokUnits(b: seq<byte>, pos: nat, t: Token, ichan: nat, dtidx: nat, units: seq<Unit>)
    requires t.HkTok? && pos + 1 + TokenSize(t) <= |b|
    ensures var block := TokenReadings(b, pos, t, ichan, dtidx, units);
      UnitsOk(block, units, dtidx) && |StdOnly(block)| == NextUnit(t, dtidx) - dtidx
  {
    HkReadings(b, pos, t, ichan, dtidx, units);
    HkUnits(b, pos + 1, HkStart(ichan), t.mask, 7);
  }

  /** The readings of one run or housekeeping token on a port whose profile
      has no housekeeping unit: its standard readings take the profile's
      units from dtidx on and move the unit index past them, and every HK
      reading is described by its channel. */
  lemma BlockUnits(b: seq<byte>, pos: nat, t: Token, ichan: nat, dtidx: nat, units: seq<Unit>)
    requires pos + 1 + TokenSize(t) <= |b| && !t.JumpTok?
    requires forall i :: 0 <= i < |units| ==> !IsHk(units[i])
    ensures var block := TokenReadings(b, pos, t, ichan, dtidx, units);
      UnitsOk(block, units, dtidx) && |StdOnly(block)| == NextUnit(t, dtidx) - dtidx
  {
    if t.RunTok? {
      RunTokUnits(b, pos, t, ichan, dtidx, units);
    } else {
      HkTokUnits(b, pos, t, ichan, dtidx, units);
    }
  }

  /** The standard readings among rs carry the units of the d-th,
      (d + 1)-th, ... standard reading, and every housekeeping reading is
      described by its channel. */
  predicate UnitsOk(rs: seq<Reading>, units: seq<Unit>, d: nat)
  {
    UnitsFrom(StdOnly(rs), units, d) && HkDescribed(rs)
  }

  /** A run or housekeeping token's readings followed by an outcome whose
      standard readings carry the units from the next unit index on. */
  lemma ThenUnits(block: seq<Reading>, o: Outcome, units: seq<Unit>, d: nat, d': nat)
    requires UnitsOk(block, units, d) && |StdOnly(block)| == d' - d
    requires o.Ok? ==> UnitsOk(o.value, units, d')
    ensures Then(block, o).Ok? ==> UnitsOk(Then(block, o).value, units, d)
  {
    if o.Ok? {
      StdOnlyAppend(block, o.value);
      UnitsFromAppend(StdOnly(block), StdOnly(o.value), units, d);
      HkDescribedAppend(block, o.value);
    }
  }

  /** Unit cycling: counting standard readings only, the readings made from
      the token at pos on carry the units of the dtidx-th, (dtidx + 1)-th,
      ... entry of the profile cycled, and every housekeeping reading is a
      binary16 value with the description of its channel. */
  lemma {:induction false} TokensUnits(b: seq<byte>, pos: nat, ichan: nat, dtidx: nat, units: seq<Unit>)
    requires pos <= |b|
    requires forall i :: 0 <= i < |units| ==> !IsHk(units[i])
    ensures Tokens(b, pos, ichan, dtidx, units).Ok? ==> UnitsOk(Tokens(b, pos, ichan, dtidx, units).value, units, dtidx)
    decreases |b| - pos
  {
    if pos < |b| && ichan < 128 && pos + 1 + TokenSize(TokenOf(b[pos])) <= |b| && !TokenOf(b[pos]).JumpTok? {
      var t := TokenOf(b[pos]);
      var next := pos + 1 + TokenSize(t);
      TokensNext(b, pos, ichan, dtidx, units);
      TokensUnits(b, next, NextChan(t, ichan), NextUnit(t, dtidx), units);
      BlockUnits(b, pos, t, ichan, dtidx, units);
      ThenUnits(TokenReadings(b, pos, t, ichan, dtidx, units), Tokens(b, next, NextChan(t, ichan), NextUnit(t, dtidx), units),
                units, dtidx, NextUnit(t, dtidx));
    } else {
      TokensStop(b, pos, ichan, dtidx, units);
    }
  }

  /** The readings of a whole token stream rise strictly and stay below
      channel 190. */
  lemma StreamChannels(b: seq<byte>, units: seq<Unit>)
    requires 1 <= |b| && Tokens(b, 1, 0, 0, units).Ok?
    ensures var rs := Tokens(b, 1, 0, 0, units).value;
      Ascending(rs) && ChannelsWithin(rs, 0, 190)
  {
    TokensRising(b, 1, 0, 0, units);
    RisingIff(Tokens(b, 1, 0, 0, units).value, 0, 190);
  }

  /** In a whole token stream over a profile without housekeeping units,
      the k-th standard reading has the unit the profile cycles to at k,
      and every housekeeping reading is a binary16 value described by its
      channel. */
  lemma StreamUnits(b: seq<byte>, units: seq<Unit>)
    requires 1 <= |b| && Tokens(b, 1, 0, 0, units).Ok?
    requires forall i :: 0 <= i < |units| ==> !IsHk(units[i])
    ensures var rs := Tokens(b, 1, 0, 0, units).value;
      && (forall k :: 0 <= k < |StdOnly(rs)| ==> StdOnly(rs)[k].unit == UnitAt(units, k))
      && (forall i :: 0 <= i < |rs| && IsHkReading(rs[i]) ==>
            rs[i].prec == F16 && rs[i].unit == Some(HkUnit(rs[i].channel)))
  {
    var rs := Tokens(b, 1, 0, 0, units).value;
    TokensUnits(b, 1, 0, 0, units);
    assert UnitsOk(rs, units, 0);
    UnitsFromIff(StdOnly(rs), units, 0);
    HkDescribedIff(rs);
  }

  /** For a decoded frame: channel numbers strictly increase and stay below
      190. */
  lemma DecodedChannels(bytes: seq<byte>, port: int)
    requires DecoderSpec(bytes, port).Ok?
    ensures var chans := DecoderSpec(bytes, port).value.chans;
      Ascending(chans) && ChannelsWithin(chans, 0, 190)
  {
    SpecTokens(bytes, port);
    StreamChannels(bytes, PortUnits(port));
  }

  /** For a decoded frame: the k-th standard reading has unit
      deftypes[port][k mod len] on ports 10..15 and none elsewhere; every
      housekeeping reading is a binary16 value with the description of its
      channel. */
  lemma DecodedUnits(bytes: seq<byte>, port: int)
    requires DecoderSpec(bytes, port).Ok?
    ensures var chans := DecoderSpec(bytes, port).value.chans;
      && (forall k :: 0 <= k < |StdOnly(chans)| ==>
            StdOnly(chans)[k].unit
            == if 10 <= port <= 15 then Some(PortUnits(port)[k % |PortUnits(port)|]) else None)
      && (forall i :: 0 <= i < |chans| && IsHkReading(chans[i]) ==>
            chans[i].prec == F16 && chans[i].unit == Some(HkUnit(chans[i].channel)))
  {
    var units := PortUnits(port);
    SpecTokens(bytes, port);
    StreamUnits(bytes, units);
    var std := StdOnly(DecoderSpec(bytes, port).value.chans);
    forall k | 0 <= k < |std|
      ensures std[k].unit == if 10 <= port <= 15 then Some(units[k % |units|]) else None
    {
      if |units| > 0 { CycleIsMod(units, k); }
    }
  }

  /** A truncated token anywhere in the stream discards every reading made
      before it: the loop, whatever it has pushed, ends in the error. */
  lemma TruncationDiscards(b: seq<byte>, pos: nat, ichan: nat, dtidx: nat, units: seq<Unit>, acc: seq<Reading>)
    requires pos <= |b| && Tokens(b, pos, ichan, dtidx, units).Err?
    ensures Walk(b, pos, ichan, dtidx, units, acc) == Err(Tokens(b, pos, ichan, dtidx, units).error)
  {
    WalkIsTokens(b, pos, ichan, dtidx, units, acc);
  }

  /** A channel jump that fits ends the decode with no reading of its own,
      whatever bytes follow it. */
  lemma JumpEnds(b: seq<byte>, pos: nat, ichan: nat, dtidx: nat, units: seq<Unit>, tail: seq<byte>)
    requires pos + 2 <= |b| && ichan < 128 && b[pos] < 128 && b[pos] % 64 == 0
    ensures Tokens(b + tail, pos, ichan, dtidx, units) == Ok([])
  {
    assert (b + tail)[pos] == b[pos];
  }
}
