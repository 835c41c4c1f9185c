# LTX payload codecs, modelled in Dafny

This project models the LoRaWAN payload codecs of the LTX data loggers.

**The LTX uplink decoder (V1.17).** `payload_ltx.js` holds it, and `payload_ltx_clean.js` is the deployed copy of the same code with the test block removed. Its line numbers are those of `payload_ltx.js` minus 7.

- Byte 0 of a frame is a header: a reset flag, an alarm or old-alarm flag, a measurement flag and a reason code.
- The rest of the frame is a token stream:
  - A token below 128 is a standard run: its low 6 bits are a count of binary32 values (bit 6 clear) or binary16 values (bit 6 set) for consecutive channels. A count of 0 is a channel jump that ends decoding.
  - A token of 128 or more is a housekeeping (HK) block. It has one binary16 value per set bit of its 7-bit mask, for channels 90 and up.
- Every value is either a number or an error code. Error codes travel in-band as words whose sign and exponent bits are all ones. The port selects a profile of units that the standard readings cycle through.
- A truncated value makes the whole frame an error.

**The older SDI decoder (V0.1, `paysdi.js`).** It reads channel-tagged records on fPort 1:

- channels 0..89 carry a 4-byte binary32 value;
- channels 90..99 carry a 2-byte housekeeping word, which is scaled per channel;
- higher channel bytes carry nothing.

Its `bytesToLTXFloat` computes the error number of an error frame from byte 2 twice (see "## Findings"). The SDI decoder therefore takes an `ErrnoRule`. With `AsWritten` it is the decoder as it stands, and with `Intended` it reads the error number from bytes 2 and 3. Everything else is the same under both rules.

**The downlink codec (`paydown_ltx.js`).** It sends a command string on fPort 10 as one byte per code unit, at most 51 of them, and decodes it back.

Module layout:

- `Wrappers`: Option and Result.
- `Words`: bytes, big-endian words and bit counting.
- `LtxTables`: `getLTXError`, `deftypes` and `unitDescrHK` as total functions over enumerations.
- `LtxValue`: the sentinel/finite classification of binary16 and binary32 words.
- `LtxHeader`: byte 0.
- `LtxSpec`: what the decoder computes, as functions over the token stream.
- `LtxDecoder`: the decoder's cursor loop as methods proved equal to `LtxSpec.DecoderSpec`.
- `LtxProperties`: channel ordering, reading counts, units and truncation.
- `LtxVectors`: concrete frames.
- `SdiValues` and `SdiDecoder`: `paysdi.js`.
- `Downlink`: `paydown_ltx.js`.

A reading's value is its raw IEEE 754 word plus its precision. The only float-dependent step, "not finite becomes NumberOverflow", is decided on the exponent bits.

The decoder's own comment at payload_ltx.js:51 gives the channels as 0..89 for values and 90..99 for housekeeping, at most 127. The loop condition at payload_ltx.js:56, however, tests `ichan < 128` only before reading a token, so one run or HK block can carry channels up to 189. `LtxVectors.ChannelAbove127` exhibits a decoded reading on channel 128, and `LtxProperties.DecodedChannels` proves the actual bound of 189.

## Model

| member | source | states |
|---|---|---|
| LtxTables.LtxError | payload_ltx.js:147-159 | every error code maps to a kind that gives the code back; only codes outside 0..3 and 6..8 become "Err" + n |
| LtxTables.LtxErrorOfCode | payload_ltx.js:147-159 | the other direction: every kind getLTXError can produce is getLTXError of its own code |
| LtxTables.UnitTextInjective | payload_ltx.js:125-145 | distinct units are reported as distinct texts |
| LtxTables.PortUnits | payload_ltx_clean.js:118-126 | a port has a unit profile exactly when it is 10..15, and no profile unit is a housekeeping description |
| LtxTables.HkUnit | payload_ltx_clean.js:129-138 | every channel gets a housekeeping description, which is the placeholder exactly when the channel is outside 90..94 |
| LtxTables.HkUnitInjective | payload_ltx.js:136-145 | channels 90..94 have pairwise distinct descriptions |
| LtxValue.Payload16Rules | payload_ltx.js:83-92 | a binary16 reading keeps its word exactly when the word is finite; a word whose top 6 bits are ones carries the error of its low 10 bits; every other non-finite word is positive and overflows |
| LtxValue.Payload32Rules | payload_ltx.js:75-92 | the same for binary32, with the top 9 bits and the low 23 bits |
| LtxValue.Sentinel16 | payload_ltx.js:84 | the binary16 word for code c is a sentinel whose mantissa is c |
| LtxValue.Sentinel32 | payload_ltx.js:76 | the binary32 word for code c is a sentinel whose mantissa is c |
| LtxValue.SentinelRoundTrip | payload_ltx.js:75-85 | every code that fits survives the trip through a sentinel word, in both widths |
| LtxValue.Payload16Msg | payload_ltx.js:105-111 | an HK word that yields a message is either the sentinel of its own code or a positive word with an all-ones exponent |
| LtxHeader.EncodeParseHeader | payload_ltx.js:38-49 | the parsed header is valid, and encoding it gives back byte 0, less bit 5 when bit 6 is also set |
| LtxHeader.ParseEncodeHeader | payload_ltx.js:38-49 | every valid header survives encoding and parsing |
| LtxSpec.CycleIsMod | payload_ltx.js:69-71 | the unit of the k-th standard reading is profile entry k mod length |
| LtxSpec.RunBlock | payload_ltx.js:66-96 | a run of count n yields exactly n readings |
| LtxSpec.RunBlockPush | payload_ltx.js:67-96 | each further value of a run appends its reading after the earlier ones, 2 or 4 bytes further on |
| LtxSpec.HkBlock | payload_ltx.js:99-119 | an HK scan yields exactly one reading per set bit of the scanned mask |
| LtxSpec.HkBlockStep | payload_ltx.js:100-119 | one bit of the HK loop either appends one reading or none, and the rest of the scan continues from the next channel |
| LtxSpec.TokenOf | payload_ltx.js:57-66 | a run token has a count of 1..63, and an HK token has a mask below 128 |
| LtxSpec.ParseTokenByte | payload_ltx.js:57-99 | every token a sender can write (count in bits 0..5, binary16 in bit 6, or bit 7 and a 7-bit mask, or a jump) is read back as itself |
| LtxSpec.TokenByteOf | payload_ltx.js:57-99 | the other direction: reading a token byte keeps all its bits, except bit 6 of a jump, which is ignored |
| LtxSpec.RunReadings | payload_ltx.js:66-96 | proof helper, unfolding the definition: a run token that fits yields its run, and advances ichan and dtidx by its count |
| LtxSpec.HkReadings | payload_ltx.js:97-120 | proof helper, unfolding the definition: an HK token that fits yields the scan from max(ichan, 90), advances ichan by 7 whatever the mask, and leaves dtidx unchanged |
| LtxSpec.SpecTokens | payload_ltx.js:27-32 | proof helper, unfolding the definition: a decoded frame has at least one byte and a port in 1..199 |
| LtxSpec.WalkStep | payload_ltx.js:56-121 | proof helper, unfolding the definition: one pass of the token loop fails on a truncated token, stops on a jump, or carries the token's readings forward |
| LtxSpec.WalkIsTokens | payload_ltx.js:56-121 | the loop with its readings accumulated in place equals the token-by-token definition |
| LtxSpec.TokensStop | payload_ltx.js:56-65 | proof helper, unfolding the definition: at the end of the frame, at ichan of 128 or more, at a jump or at a truncated token, the stream yields no readings or an error |
| LtxSpec.TokensNext | payload_ltx.js:56-121 | proof helper, unfolding the definition: a token that fits puts its readings in front of those of the next token |
| LtxSpec.WalkNext | payload_ltx.js:56-121 | proof helper, unfolding the definition: in the loop, a token that fits appends its readings and moves all cursors past itself |
| LtxDecoder.ReadStd | payload_ltx.js:68-92 | one value of a run fails exactly when fewer bytes are left than its width; otherwise it is the reading at the cursor with the cycled unit |
| LtxDecoder.ReadRun | payload_ltx.js:66-96 | a run fails exactly when the frame is too short for all its values; otherwise it returns the run's readings and advances cursor, ichan and dtidx by the run |
| LtxDecoder.ReadHkBit | payload_ltx.js:101-116 | a set mask bit needs two bytes and appends the HK reading at the cursor; a clear bit reads nothing |
| LtxDecoder.ReadHkBlock | payload_ltx_clean.js:92-112 | an HK block fails exactly when the frame is too short for one value per set bit; otherwise it returns those readings, moves the cursor 2 bytes per set bit and ichan by 7 |
| LtxDecoder.ReadToken | payload_ltx.js:57-120 | one pass of the loop fails exactly when the token's bytes run past the end, stops at a jump without a reading, and otherwise appends the token's readings |
| LtxDecoder.Decoder | payload_ltx.js:27-123 | the cursor loop returns exactly what the token-stream definition gives, errors and header included |
| LtxDecoder.DecodeUplink | payload_ltx.js:17-24 | ports 1..199 are decoded; any other port yields the error naming it |
| LtxProperties.RunBlockAt | payload_ltx.js:67-96 | the i-th reading of a run is the value 2i or 4i bytes in, on channel ichan + i, with unit index dtidx + i |
| LtxProperties.RunBlockShape | payload_ltx.js:67-96 | every reading of a run has its channel, precision and unit as the run position dictates |
| LtxProperties.RunRising | payload_ltx.js:93-95 | a run's channels rise strictly from ichan to below ichan + n |
| LtxProperties.HkRising | payload_ltx.js:98-119 | an HK scan's channels rise strictly and stay below its start + 7 |
| LtxProperties.HkBitAt | payload_ltx.js:100-119 | the i-th HK reading lies on the channel of a set mask bit, within the 7 channels of the block |
| LtxProperties.HkValueAt | payload_ltx.js:101-115 | the i-th HK reading is the binary16 value 2i bytes into the block, with its channel's description: values follow each other whichever bits are clear |
| LtxProperties.HkBlockBits | payload_ltx.js:100-119 | every HK reading lies on a channel whose mask bit is set |
| LtxProperties.HkBlockComplete | payload_ltx.js:100-119 | every set mask bit yields a reading on its channel |
| LtxProperties.HkReadingCount | payload_ltx_clean.js:90-113 | an HK token yields as many readings as its 7-bit mask has set bits |
| LtxProperties.RunTokRising | payload_ltx.js:66-96 | a run token's readings rise from ichan to below the next ichan |
| LtxProperties.HkTokRising | payload_ltx.js:97-120 | an HK token's readings rise from ichan to below the next ichan |
| LtxProperties.BlockRising | payload_ltx.js:56-120 | a token read while ichan < 128 leaves ichan at most 190, with its readings rising below it |
| LtxProperties.TokensRising | payload_ltx.js:56-121 | the readings of the rest of the stream rise strictly from ichan and stay below 190 |
| LtxProperties.RunStd | payload_ltx.js:67-96 | on a profile without HK units, every reading of a run is a standard reading |
| LtxProperties.RunUnitsFrom | payload_ltx.js:69-71 | the readings of a run carry the units of standard readings dtidx, dtidx + 1, and so on |
| LtxProperties.RunDescribed | payload_ltx.js:67-96 | a run holds no reading that would need an HK description |
| LtxProperties.HkUnits | payload_ltx.js:103 | an HK scan holds HK readings only, each binary16 with its own channel's description |
| LtxProperties.RunTokUnits | payload_ltx.js:66-96 | a run token's readings are all standard and carry the cycled units from dtidx on |
| LtxProperties.HkTokUnits | payload_ltx.js:97-120 | an HK token makes no standard reading and describes each of its readings |
| LtxProperties.BlockUnits | payload_ltx.js:56-120 | a token's standard readings continue the unit cycle, and its HK readings are described |
| LtxProperties.TokensUnits | payload_ltx.js:56-121 | throughout the stream, the k-th standard reading has the cycled unit and every HK reading its channel's description |
| LtxProperties.StreamChannels | payload_ltx.js:56-121 | a whole stream's channels rise strictly and stay in 0..189 |
| LtxProperties.StreamUnits | payload_ltx.js:53-121 | in a whole stream, standard readings cycle through the profile and HK readings are described |
| LtxProperties.DecodedChannels | payload_ltx.js:27-123 | a decoded frame's channels rise strictly and lie in 0..189 |
| LtxProperties.DecodedUnits | payload_ltx.js:53-103 | in a decoded frame, the k-th standard reading has unit profile[k mod length] on ports 10..15 and none elsewhere; every other reading is a binary16 HK reading with its channel's description |
| LtxProperties.TruncationDiscards | payload_ltx.js:56-121 | a truncated token anywhere discards every reading already pushed |
| LtxProperties.JumpEnds | payload_ltx_clean.js:53-58 | a jump token that fits ends decoding with no reading, whatever bytes follow |
| LtxVectors.SentinelWords | payload_ltx.js:194-196 | FC02 and FF800002 read as NoReply, 7C00 as NumberOverflow, and 3C00 keeps its word |
| LtxVectors.HeaderByte | payload_ltx.js:38-49 | header bytes 92, 63 and 00 read as reset/measure/auto, alarm/manual, and reason 0 |
| LtxVectors.TokenBytes | payload_ltx.js:57-99 | token bytes 42, 44, 02, 85, 80 and 40 announce their runs, masks and the jump |
| LtxVectors.RunFrame | payload_ltx.js:27-123 | frame 92 42 3C00 FC02 on port 11 decodes to a value on channel 0 (%rH) and NoReply on channel 1 (°C) |
| LtxVectors.TestFrameDecodes | payload_ltx.js:196-198 | the source's test frame on port 1 (header 12, token 58, 24 binary16 words) decodes to measure/auto and readings on channels 0..23 without units, each its word, with the two 7C00 words on channels 6 and 7 as NumberOverflow |
| LtxVectors.TestRun | payload_ltx.js:66-96 | the 24-value run of that frame reads its words in order, 2 bytes apart, on channels 0..23 |
| LtxVectors.RunReadingIs | payload_ltx.js:66-96 | proof helper: the reading of the i-th word at offset 2 is the i-th reading of a binary16 run there |
| LtxVectors.HkFrame | payload_ltx.js:97-120 | an HK frame with mask 5 decodes to readings on channels 90 and 92, the second an overflow |
| LtxVectors.HkFrameTokens | payload_ltx.js:56-121 | the token stream of that frame yields those two readings |
| LtxVectors.HkFrameBlock | payload_ltx.js:99-119 | the HK scan of mask 5 from channel 90 yields those two readings |
| LtxVectors.TruncatedFrame | payload_ltx.js:73 | a binary32 run cut short gives Format(2) and no readings |
| LtxVectors.RejectedFrames | payload_ltx.js:31-32 | an empty frame and ports 0 and 200 are rejected |
| LtxVectors.ChannelAbove127 | payload_ltx.js:56-96 | five empty HK blocks and a run of four binary16 values decode to a reading on channel 128 |
| LtxVectors.EmptyHk | payload_ltx.js:97-120 | an HK token with an empty mask reads no value and still advances ichan by 7 |
| LtxVectors.FrameOf | payload_ltx.js:27-56 | a frame whose token stream succeeds decodes to its parsed header and those readings |
| SdiValues.SdiError | paysdi.js:79-95 | every error number gives a kind that gives it back; only numbers outside 1..3 and 6..8 become "Err" + n |
| SdiValues.SdiErrorIsLtxError | paysdi.js:79-95 | the SDI table is the LTX table except that 0 is "Err0" rather than NumberOverflow |
| SdiValues.ErrnoAsWrittenNeverNamed | paysdi.js:77-95 | as written, the error number is a multiple of 257, so every error frame reads as "Err" + n |
| SdiValues.NoReplyFrameAsWritten | paysdi.js:77-95 | FD 00 00 02 reads "Err0" as written and NoReply as intended |
| SdiValues.ErrorFrameRoundTrip | paysdi.js:76-96 | every error frame reads back as its own code |
| SdiValues.FloatRoundTrip | paysdi.js:97-100 | every binary32 word whose top byte is not FD reads back from its four big-endian bytes |
| SdiValues.FloatBytes | paysdi.js:97-100 | four bytes that are not an error frame are the bytes of the word they decode to |
| SdiValues.ZeroPadding | paysdi.js:97-99 | a short slice decodes as if it were padded with zero bytes, under both rules |
| SdiValues.StdValue | paysdi.js:76-100 | under either rule, a value is a message exactly when its first byte is FD, and otherwise the big-endian word of its bytes |
| SdiValues.Signed16Unique | paysdi.js:58 | the signed conversion gives the one number in -32768..32767 congruent to the word |
| SdiValues.HkLabelTextInjective | paysdi.js:59-72 | distinct HK labels are distinct texts |
| SdiValues.Value2HK | paysdi.js:57-73 | divisors are 1000, 10, 10, 1, 10 for channels 90..94 and 1 elsewhere; only channel 91 is signed; the number always gives the word back mod 65536; the label is the placeholder exactly off 90..94 |
| SdiValues.HkLabelChannel | paysdi.js:59-72 | two values with the same real label come from the same channel |
| SdiValues.HkRoundTrip | paysdi.js:57-73 | a reading in its channel's range, sent as a 16-bit word, comes back as the same number and the same number / divisor |
| SdiDecoder.SdiReasonRoundTrip | paysdi.js:18-28 | reason codes and reasons convert back and forth without loss |
| SdiDecoder.HeadersAgreeOnFlags | paysdi.js:11-30 | both decoders read the same flag bits; SDI's automatic code is 1, LTX's is 2 |
| SdiDecoder.Slice4 | paysdi.js:37 | a standard record's value bytes are at most 4 |
| SdiDecoder.RecordsWellKeyed | paysdi.js:32-46 | channels 0..89 write `chan_` keys with float values, 90..99 `hk_` keys with HK values |
| SdiDecoder.RecordsCount | paysdi.js:32-46 | there are at most as many records as bytes after the cursor |
| SdiDecoder.TruncatedRecord | paysdi.js:35-44 | a record cut short at the end reads as if the missing bytes were zeros |
| SdiDecoder.StoreLastWrite | paysdi.js:40-44 | after the records are written, a key holds its last record's field, and unwritten keys are unchanged |
| SdiDecoder.LastWriteIsLast | paysdi.js:40-44 | the last write is held by a record after which no record writes the key; none means no record writes it |
| SdiDecoder.UplinkSpec | paysdi.js:8-53 | every port but 1 yields the error naming it |
| SdiDecoder.DecodedFields | paysdi.js:32-46 | a key is present exactly when some record writes it, and it holds the field of its last record |
| SdiDecoder.DecodeUplink | paysdi.js:3-55 | the record loop returns the header and the fields of all records in frame order; with AsWritten, error frames are read as paysdi.js:78 does |
| SdiDecoder.StdRecordAt | paysdi.js:35-40 | a complete standard record takes 5 bytes and writes bytesToLTXFloat of its 4 data bytes, under the rule in use |
| SdiDecoder.ErrorRecord | paysdi.js:35-40 | the frame 11 00 FD000002 writes "Err0" to chan_0 as the decoder stands, and NoReply as intended |
| SdiDecoder.HkRecordAt | paysdi.js:41-44 | a complete HK record takes 3 bytes and writes its channel's HK value |
| SdiDecoder.FirstSample | paysdi.js:121 | 11 00 419147A4 is a measurement sent automatically, with word 419147A4 on channel 0 |
| SdiDecoder.SecondSample | paysdi.js:122 | the second sample decodes to its header, one float and HK values 3451/1000, 205/10, 463/10, 0/1 and 9977/10 |
| Downlink.DownlinkWarning | paydown_ltx.js:25-32 | zero length and truncation warnings exactly on their lengths; for lengths 1..51 a warning exactly when a port other than 10 was given, and then it is PortForced naming that port |
| Downlink.EncodeDownlink | paydown_ltx.js:17-39 | a non-string cmd is an error; otherwise fPort 10 and the first min(length, 51) code units, with the warning the assignments leave |
| Downlink.DecodeDownlink | paydown_ltx.js:42-47 | a command exactly on fPort 10, one code unit per byte; otherwise the error naming the port |
| Downlink.EncodeShape | paydown_ltx.js:24-36 | the bytes are a prefix of cmd of at most 51, whole exactly when cmd fits, and there is no warning exactly for a length of 1..51 on port 10 or none |
| Downlink.RoundTrip | paydown_ltx.js:17-47 | decoding what was encoded gives back cmd cut to 51 code units |
| Downlink.DecodeEncode | paydown_ltx.js:17-47 | bytes of at most 51 code units re-encode to themselves |
| Downlink.CmdP300 | paydown_ltx.js:49 | "p 300" is sent as 70 20 33 30 30 |

## Left out

- Floating-point values are not modelled. The effects left out are `getFloat32`, `getFloat16` with its polyfill (payload_ltx.js:161-171), `toPrecision` and `parseFloat`. A reading keeps its raw word and precision. The finite check is decided on the exponent bits.
- SdiValues.Value2HK: the division is kept as a number and a divisor, with no claim about float rounding.
- The DataView and ArrayBuffer plumbing is not modelled. A frame is a sequence of bytes, and words are assembled big-endian.
- The console harnesses are not modelled: payload_ltx.js:173-208, paysdi.js:104-134 and the hex-string parsing. They are console I/O.
- `wrk.js` is not part of this model. Its decoder returns constants.
- `write_clean_chirpstack_decoder.php` is not part of this model. It is a build-time file copier.
- Downlink.EncodeDownlink: the exception that `input.data.cmd` throws when `input.data` is undefined is not modelled; `data` is taken to be present. A non-string cmd is `None`, and a string is a sequence of UTF-16 code units.
- The output strings are modelled as enumerations, mapped one-to-one to their texts. This covers flags, reasons, messages, units, `Err<n>`, the `chan_<n>` and `hk_<n>` keys, and the warning and error texts.
- The key order of the JSON objects is not modelled. The SDI fields are a map.
- SdiValues.BytesToLtxFloat: takes at most 4 bytes, which is all `slice(c, c + 4)` can give it.
- The model assumes every input byte is in 0..255.

## Findings

| source | as written | input that shows it | evidently intended | confidence | as-written member | corrected member |
|---|---|---|---|---|---|---|
| paysdi.js:78 | the error number is `bytes[2] << 8 \| bytes[2]`: byte 2 is used twice and byte 3 never, so it is always a multiple of 257 and never one of the named codes 1..8 | FD 00 00 02, the NoReply frame, reads "Err0" | `bytes[2] << 8 \| bytes[3]`, so FD 00 00 02 reads NoReply and every error frame gives back its code | not executed | SdiValues.BytesToLtxFloatAsWritten, exhibited by SdiValues.NoReplyFrameAsWritten, SdiValues.ErrnoAsWrittenNeverNamed and, in the decoder under AsWritten, SdiDecoder.ErrorRecord | SdiValues.BytesToLtxFloat, with SdiValues.ErrorFrameRoundTrip; the decoder uses it under Intended |
