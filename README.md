# pysump in Dafny

This project models the host side of pysump, a client for logic analyzers
that speak the SUMP protocol (the Open Bench Logic Sniffer and its
relatives). It covers the three drafts of the library as they stand, each
as written, without merging them:

- `sump/sump.py` with `sump/ops.py`: the first draft. It writes every
  protocol byte with `chr()`, one at a time.
- `sump/interface.py` with `sump/settings.py`: a rewrite with the same
  command set. It packs each message whole with `struct.pack`.
- `sump2/`: the second generation. It has its own settings and trigger
  objects, which pack themselves, and a serial device class (`rs232.py`)
  that resends settings only when their packed bytes change. It also has
  an `ols.py` metadata reader and a `parse.py` field splitter.

Three kinds of entity are modelled:

- Mutable Python objects are Dafny classes: the settings objects, the
  interfaces, the trigger set and the device classes.
- Messages and decoders are functions on byte sequences, with lemmas
  about them.
- The serial port is a `Wire.Port` object holding:
  - the bytes the device will send (`input`, read from `pos` on);
  - the bytes written so far (`output`);
  - the `timeout` attribute.

  `read(n)` returns at most `n` bytes. A short read stands for the
  timeout expiring.

## How the model is organised

Shared semantics:

- `common.dfy` (`Common`): Python integer semantics.
  - Shifts, `|` and `&` on integers of either sign, in two's complement.
  - Python 2's flooring `/`.
  - The exceptions the code raises.
- `wire.dfy` (`Wire`): the port.
  - `Emission` is the bytes written plus the exception that stopped the
    writing, if any. `chr()`-at-a-time writes can stop part way; a
    `struct.pack` message is written whole or not at all.
  - `Range` models a `for` loop over stages that an exception cuts short.
  - It also holds the NUL-terminated string reader.
- `struct.dfy` (`Struct`): `struct.pack` for `<B`, `<H` and `<i`, and the
  `+` / `''.join` of packed pieces.
- `ops.dfy` (`SumpOps`): `big_endian` and `little_endian`.
- `lanes.dfy` (`Lanes`): byte lanes. A lane `i` is enabled when bit `i`
  of `channel_groups` is clear. A sample is the OR of its lane bytes
  shifted into place.
- `tokens.dfy` (`MetadataTokens`): the metadata token stream that both
  first-generation interfaces decode.

First draft:

- `sump_device.dfy` (`SumpDevice`): every message `sump.py` sends, as the
  bytes the `chr()` calls write.
- `sump_client.dfy` (`SumpClient`): the `SumpSettings` and
  `SumpInterface` classes of `sump.py`.

Rewrite:

- `sump_settings.dfy` (`SumpSettings`): the `TriggerStage` and
  `Settings` classes of `sump/settings.py`.
- `sump_interface.dfy` (`SumpInterface`): `sump/interface.py`. Its
  messages are proved equal to the first draft's wherever both succeed.

Second generation:

- `sump2_settings.dfy` (`Sump2Settings`): `sump2/settings.py`.
- `rs232.dfy` (`RS232`): `sump2/devices/rs232.py`.
- `ols.dfy` (`Ols`): `sump2/devices/ols.py`.
- `parse.dfy` (`Parse`): `sump2/ops/parse.py`.

Python dictionaries of settings and trigger fields are `map<string, int>`,
with `True` and `False` as 1 and 0 since those are what the code does
arithmetic with. A trigger argument that `Triggers.__init__` tells apart
with `hasattr`/`isinstance` is a small datatype.

## Where the code and its usual description differ

The model follows the code at each of these points:

- Partial writes. In `sump.py` an encoding error can come after part of
  a command has been written, because each byte is a separate `write`.
  For example, a trigger level of 256 makes `chr()` raise after three
  bytes of the configuration message. Only the `struct.pack` drafts write
  all or nothing.
- Short capture stream. There is no dedicated "truncated capture" error:
  both first-generation captures and `rs232.py` (whose `capture` the
  `ols.py` device inherits) raise `TypeError` from `ord('')`.
- Zero divider. `get_sample_rate` with divider 0 raises
  `ZeroDivisionError`; nothing validates the value first.
- Order in `sump.py`. `send_settings` writes the divider, the counts, the
  flags and then the triggers. The other drafts put the triggers second
  and the counts and flags last.
- Trigger mode. `trigger_enable` is a free string. A value other than
  `'None'`, `'Simple'` and `'Complex'` is only noticed after the divider
  (and in `sump.py` the counts and flags) have been written.
- Metadata errors. In `ols.py`, end of input where a metadata key is due
  raises `ValueError`, and end of input inside a number or byte value
  raises `struct.error` from `read_uint` or `read_ubyte`. A string with no NUL before the end of
  input makes the reading loop of `sump.py` and of `ols.py` spin for ever;
  the model returns an `EndlessLoop` error there.
- `sump2` read count. The read count is sent as `read_count // 4 - 1`,
  not rounded up as in the first drafts. A count is first rounded down to
  a multiple of four and written back to the settings.
- `sump2` divider. The high part of `divider - 1` is masked to 16 bits
  but packed into a single byte. So the message packs only when
  `(divider - 1) mod 2^32 < 2^24`, and a divider of 0 raises
  `struct.error`.
- Sample order. Captured samples are not returned in the order they were
  read: `sump.py` stores them in reversed slots, and `interface.py`
  reverses the list. `rs232.py` keeps read order.
- Length in `sump.py`. A valid `send_settings` writes 75 bytes: 5 for the
  divider, 5 for the counts, 5 for the flags and 60 for the four trigger
  stages.

## Model

| member | source | states |
|---|---|---|
| SumpOps.BigEndian | sump/ops.py:4-7 | The value of four bytes read most significant first; it is below 2^32. |
| SumpOps.LittleEndian | sump/ops.py:10-13 | The value of four bytes read least significant first; it is below 2^32. |
| SumpOps.OrOfFourBytes | sump/ops.py:4-13 | OR-ing four shifted bytes, as both helpers do, equals their weighted sum, since the shifted bytes never overlap. |
| SumpOps.LittleIsReversedBig | sump/ops.py:4-13 | `little_endian(b)` is `big_endian` of the same four bytes reversed. |
| SumpOps.BigEndianInjective | sump/ops.py:4-7 | Two four-byte values with the same `big_endian` are the same bytes. |
| SumpOps.LittleEndianOfLeBytes | sump/sump.py:221-224 | The four bytes `_send_trigger_mask` writes for a word (`& 0xFF` of each shift) read back little-endian as the word modulo 2^32, so a 32-bit word comes back exactly. |
| SumpOps.BigEndianOfBeBytes | sump/ops.py:4-7 | `big_endian` inverts the most-significant-first split of any value below 2^32. |
| Common.SampleRateOf | sump/sump.py:131-136 | ZeroDivisionError exactly for divider 0. Otherwise the rate is the Python 2 floor quotient, doubled when `demux` is set; it lies within one divider of the true quotient. |
| Wire.Chrs | sump/sump.py:217-224 | A run of `w(chr(v))` writes: it succeeds iff every value is a byte, and otherwise writes exactly the bytes before the first bad value and raises ValueError. |
| Wire.ChrsStopsAt | sump/sump.py:217-224 | When some value is not a byte, the writes stop at the lowest such index and the written bytes are that prefix. |
| Wire.Whole | sump/interface.py:89-90 | A `struct.pack` message either writes all its bytes or writes nothing and raises. |
| Wire.RangeStops | sump/sump.py:226-235 | In a loop over stages, once one stage raises, no later stage writes anything and the loop raises that exception. |
| Wire.RangeSlices | sump/sump.py:226-235 | When no stage of the loop raises, each stage's bytes sit at their own offset in the loop's output, in stage order. |
| Wire.CStringSpec | sump/sump.py:371-379 | The NUL-terminated read fails exactly when there is no NUL, having consumed the rest of the stream. Otherwise it yields the bytes before the first NUL (none of them NUL) and consumes the NUL as well. |
| Wire.CStringOf | sump/sump.py:371-379 | Any NUL-free string followed by a NUL is read back as that string, whatever follows it. |
| Wire.ReadCString | sump/sump.py:371-379 | The byte-at-a-time loop returns what `CString` specifies and advances the port by exactly the bytes it consumed. |
| Lanes.EnabledLanes | sump2/devices/rs232.py:98-104 | Lane `i` is listed iff `i` is below the group count and bit `i` of `channel_groups` is clear; the lanes come in ascending order. |
| Lanes.AssembleBound | sump2/devices/rs232.py:119-123 | A sample OR-ed together from bytes on lanes below `m` is below 2^(8m). |
| Lanes.AssembleStep | sump/sump.py:178-186 | OR-ing a byte into a lane above every lane used so far is the same as adding it. |
| Lanes.AssembleLanes | sump/sump.py:178-186 | In an assembled sample every enabled lane's byte sits in its own byte position, and every other byte position is zero. |
| Lanes.SampleAt | sump/interface.py:53-57 | Sample `k` of a capture is assembled from stream bytes `k*w .. k*w+w-1`, where `w` is the number of enabled lanes. |
| Lanes.SampleBytes | sump/interface.py:53-57 | Byte `lanes[j]` of sample `k` is stream byte `k*w + j`, and bytes of disabled lanes are zero. |
| Lanes.ReadSample | sump/interface.py:54-56 | Reading one sample consumes one byte per enabled lane and returns the assembled sample. At end of stream it raises TypeError, as `ord('')` does. |
| MetadataTokens.ValueWellFormed | sump/sump.py:371-388 | A decoded value's kind follows from its key: a string for keys below 0x20, a 32-bit number up to 0x3F, a byte up to 0x5F, and nothing for keys at or above 0x60. |
| MetadataTokens.DecodeWellFormed | sump/sump.py:363-388 | Decoding only appends to the accumulated list, and every token it appends is well formed. |
| MetadataTokens.ValueOfEncoding | sump/sump.py:371-388 | The value part of an encoded token decodes back to its value and consumes exactly its bytes. |
| MetadataTokens.DecodeToken | sump/sump.py:363-388 | A well-formed token's encoding, followed by anything, decodes to that token first. |
| MetadataTokens.DecodeEncode | sump/sump.py:363-388 | Encoding well-formed tokens and putting any bytes after them, the decoder gets those tokens back in order, repeated keys included, and then goes on with what follows. |
| MetadataTokens.TokensRoundTrip | sump/sump.py:363-369 | The same round trip when a 0x00 key terminates the list, whatever follows the terminator. |
| MetadataTokens.ReadValue | sump/sump.py:371-388 | Reading one value after its key returns what the decoder specifies and consumes the bytes it says. |
| MetadataTokens.ReadTokens | sump/sump.py:363-388 | The read loop returns the decoder's token list and consumes exactly what the decoder consumes. |
| MetadataTokens.ReadToken | sump/sump.py:364-388 | One pass of the loop either ends it with the decoder's result, or consumes part of the stream and leaves the decoder's overall outcome unchanged. |
| Struct.PackB | sump/interface.py:89 | `<B` packs exactly the values 0..255, as one byte; anything else is a struct error. |
| Struct.PackH | sump/interface.py:114-117 | `<H` packs exactly 0..65535, as two bytes, low byte first. |
| Struct.PackI | sump/interface.py:89 | `<i` packs exactly the signed 32-bit range, as the four little-endian bytes of the value in two's complement. |
| Struct.PackIRoundTrip | sump/interface.py:89 | The packed bytes read back little-endian as the value itself, or as the value plus 2^32 when it is negative. |
| Struct.Cat | sump2/settings.py:128-131 | Concatenating packed pieces fails with the first piece's error, and otherwise is the pieces in order. |
| Struct.JoinOk | sump2/settings.py:134-135 | `''.join` of packed stages succeeds iff every stage packs. |
| Struct.JoinLayout | sump2/settings.py:134-135 | When every piece packs to `k` bytes, the join is `k*n` bytes with piece `i` at offset `k*i`. |
| SumpDevice.CopyOf | sump/sump.py:108-129 | `copy` takes every field of its source except `timeout` and `latest_first`, which keep the target's values. |
| SumpDevice.OpcodeOfStage | sump/sump.py:220 | `base \| (stage << 2)` is `base + 4*stage` for stages 0..3, and `chr` of it succeeds iff the stage is 0..63. |
| SumpDevice.DividerRoundTrip | sump/sump.py:282-290 | The divider message is 0x80, then `divider - 1` modulo 2^24 as three low-first bytes, then 0. A divider of 1..2^24 is recovered exactly. |
| SumpDevice.QuarterRoundsUp | sump/sump.py:297 | `(count + 3) >> 2` is the count divided by four and rounded up. |
| SumpDevice.CountFields | sump/sump.py:292-303 | The count message is 0x81 then the two rounded-up quarter counts, each truncated to 16 bits, low byte first. |
| SumpDevice.FlagsRange | sump/sump.py:305-318 | The flags byte is a byte iff `channel_groups` is 0..63. Otherwise the message stops after 0x82 with ValueError. |
| SumpDevice.FlagsMsgIsChrs | sump/sump.py:305-318 | The flags message is exactly the five `chr()` writes of the source, including the three zero bytes. |
| SumpDevice.FlagsFields | sump/sump.py:309-313 | For `channel_groups` below 16 the flag fields do not overlap, and each of inverted, external, groups, filter and demux is read back from the byte. |
| SumpDevice.WordMsgIsChrs | sump/sump.py:217-224 | A mask or value message is the opcode and four masked bytes written one `chr()` at a time, stopping only at a bad opcode. |
| SumpDevice.WordMsgFields | sump/sump.py:237-244 | For stages 0..63 the message is five bytes: the opcode, then the word modulo 2^32 in little-endian order. |
| SumpDevice.ConfigMsgIsChrs | sump/sump.py:257-267 | A configuration message is the source's five `chr()` writes, stopping at the first value out of byte range. |
| SumpDevice.ChannelLevelRange | sump/sump.py:266 | Byte 3 (`((channel & 0x0F) << 4) \| level`) is a byte iff `level` is; it then holds the level in its low nibble when `level < 16`. |
| SumpDevice.StartSerialValue | sump/sump.py:267 | Byte 4 equals `8*start + 4*serial + bit 4 of channel`, always a byte. |
| SumpDevice.ConfigMsgOutcome | sump/sump.py:257-267 | For stages 0..3 the message fails exactly when `level` is not a byte, and then only after its first three bytes. Otherwise it is five bytes carrying the delay's low 16 bits. |
| SumpDevice.ConfigFields | sump/sump.py:257-267 | With `level < 16` and `channel < 32` the level, channel, start and serial are all read back from bytes 3 and 4. |
| SumpDevice.ConfigStageOutcome | sump/sump.py:272-280 | One stage of `send_trigger_configuration_settings` raises nothing iff its five list entries exist and its level is a byte; it then sends that stage's configuration. |
| SumpDevice.FixedStageBytes | sump/sump.py:327-330 | A fixed stage is fifteen bytes: a configuration with the given start, a zero mask and a zero value. |
| SumpDevice.FixedBlockLength | sump/sump.py:327-330 | A loop of fixed stages from any first stage up to stage 3 raises nothing and writes 15 bytes per stage. |
| SumpDevice.FixedBlockStage | sump/sump.py:338-341 | In such a loop, each stage's 15 bytes sit at its own offset, in stage order. |
| SumpDevice.ComplexBlockOutcome | sump/sump.py:342-345 | The `'Complex'` block raises nothing iff every per-stage list has four entries and every level is a byte; it is then 60 bytes. |
| SumpDevice.ConfigBlockOk | sump/sump.py:269-280 | The configuration loop raises nothing iff all five per-stage lists have at least four entries and the first four levels are bytes. |
| SumpDevice.WordBlockOk | sump/sump.py:226-255 | The mask loop raises nothing iff `trigger_mask` has at least four entries, and the same for the value loop and `trigger_values`. |
| SumpDevice.ComplexLength | sump/sump.py:342-345 | A complete `'Complex'` block is 60 bytes. |
| SumpDevice.ComplexLayout | sump/sump.py:342-345 | The block is the four configurations, then the four masks, then the four values (not stage by stage): stage `i` sits at offsets `5i`, `20+5i` and `40+5i`. |
| SumpDevice.BlockSlices | sump/sump.py:226-280 | Each of the three loops writes 20 bytes and places stage `i` at offset `5i` within them. |
| SumpDevice.ComplexStage | sump/sump.py:226-280 | For a ready block, stage `i`'s configuration, mask and value messages are exactly its own list entries, with opcodes `0xC2+4i`, `0xC0+4i` and `0xC1+4i`. |
| SumpDevice.SimpleBlockOutcome | sump/sump.py:331-341 | The `'Simple'` block raises nothing iff the five stage-0 entries it reads (delay, channel, serial, mask, values) exist; otherwise IndexError. |
| SumpDevice.SimpleStageZeroBytes | sump/sump.py:333-335 | Stage 0's configuration under `'Simple'` is sent with level 0 and start true, whatever the stored level and start. |
| SumpDevice.SimpleParts | sump/sump.py:331-341 | The `'Simple'` block is stage 0's three messages, then three fixed stages. |
| SumpDevice.SimpleLayout | sump/sump.py:333-337 | Stage 0's configuration, mask and value sit at offsets 0, 5 and 10. |
| SumpDevice.SimpleForcesLevelAndStart | sump/sump.py:333-335 | Byte 3 of stage 0 is `16*(channel mod 16)` (level forced to 0) and byte 4 has the start bit set. |
| SumpDevice.SimpleLater | sump/sump.py:338-341 | Stages 1..3 of `'Simple'` are fixed stages that never start the capture. |
| SumpDevice.SimpleTail | sump/sump.py:338-341 | The 45 bytes after stage 0 are the three fixed stages, in order. |
| SumpDevice.TriggerBlockOutcome | sump/sump.py:324-347 | The trigger block succeeds iff the mode is one of the three names and that mode's data is ready. An unknown mode raises SumpTriggerEnableError and writes nothing. |
| SumpDevice.SendSettingsOutcome | sump/sump.py:320-347 | `send_settings` succeeds iff `channel_groups` is 0..63 and the triggers are ready; it then writes 75 bytes. |
| SumpDevice.SendSettingsLayout | sump/sump.py:320-323 | With valid groups the output is the divider, counts and flags messages, then the trigger block, and it ends as that block ends. |
| SumpDevice.SendSettingsBadGroups | sump/sump.py:305-323 | A `channel_groups` outside 0..63 raises ValueError after the divider, the counts and the single byte 0x82. |
| SumpDevice.UnknownModeRaisesLate | sump/sump.py:320-347 | An unknown `trigger_enable` raises SumpTriggerEnableError only after the 15 bytes of divider, counts and flags have gone out. |
| SumpClient.Settings.constructor | sump/sump.py:67-68 | A new settings object holds `DEFAULT_SETTINGS`, since `__init__` calls `default()`. |
| SumpClient.Settings.Default | sump/sump.py:70-100 | `default()` puts every attribute back to its default, per-stage lists included. |
| SumpClient.Settings.CopyTo | sump/sump.py:108-129 | `copy(other)` leaves `other` with every attribute of this object except `timeout` and `latest_first`, which keep `other`'s values. |
| SumpClient.Settings.Clone | sump/sump.py:102-106 | `clone()` returns a fresh object with this one's attributes, except `timeout` and `latest_first`, which keep their defaults. |
| SumpClient.Settings.SampleRate | sump/sump.py:131-136 | ZeroDivisionError exactly for divider 0. Otherwise the 100 MHz clock is floor-divided by the divider, and the result is doubled (so even) with `demux`. |
| SumpClient.Ordered | sump/sump.py:170-174 | Reading `k` lands in slot `k`, or in slot `n-1-k` with `latest_first`; nothing is lost or duplicated. |
| SumpClient.ReadSamples | sump/sump.py:177-187 | The read loop fills a fresh array equal to the ordered samples assembled from the stream and consumes `n` bytes per enabled lane. A short stream raises TypeError after consuming what there was. |
| SumpClient.Interface.constructor | sump/sump.py:144-149 | After construction the port has the given timeout, a reset then the metadata query have gone out, and the kept metadata is what the decoder makes of the reply. A failed query is kept as an `Err` value, where the source lets the exception escape from `__init__`. |
| SumpClient.Interface.Reset | sump/sump.py:151-157 | `reset()` writes five zero bytes and nothing else. |
| SumpClient.Interface.IdString | sump/sump.py:191-195 | `id_string()` writes 0x02 and returns the first four reply bytes in reverse order (fewer if the stream ends first). |
| SumpClient.Interface.Xon | sump/sump.py:197-198 | `xon()` writes 0x11. |
| SumpClient.Interface.Xoff | sump/sump.py:200-201 | `xoff()` writes 0x13. |
| SumpClient.Interface.QueryMetadata | sump/sump.py:352-391 | A reset, then 0x04. The result is the decoder's token list for the reply, the consumed bytes are the decoder's, and the port timeout is restored whatever happens. |
| SumpClient.Interface.SendTriggerMask | sump/sump.py:217-224 | Writes the mask message and raises exactly its exception. |
| SumpClient.Interface.SendTriggerValues | sump/sump.py:237-244 | Writes the values message and raises exactly its exception. |
| SumpClient.Interface.SendTriggerConfiguration | sump/sump.py:257-267 | Writes the configuration message, stopping with ValueError where `chr()` stops it. |
| SumpClient.Interface.SendFixedStages | sump/sump.py:327-330 | The fixed-stage loop writes the fixed block specified for the stages from `lo` to 3 and never raises. |
| SumpClient.Interface.SendTriggerMaskSettings | sump/sump.py:226-235 | Writes the mask block: every stage's mask, stopping at the first missing entry. |
| SumpClient.Interface.SendTriggerValuesSettings | sump/sump.py:246-255 | Writes the values block, stopping at the first missing entry. |
| SumpClient.Interface.SendTriggerConfigurationSettings | sump/sump.py:269-280 | Writes the configuration block, with each list entry looked up just before the byte that needs it. |
| SumpClient.Interface.SendConfigStage | sump/sump.py:273-280 | One stage's five configuration bytes, each list entry looked up just before the byte that needs it, so a missing entry or an out-of-range byte stops the stage part way. |
| SumpClient.Interface.SendConfigStages | sump/sump.py:272-280 | The stage loop writes what the configuration block specifies over the five lists, stopping at the first raise. |
| SumpClient.Interface.SendDividerSettings | sump/sump.py:282-290 | Writes the divider message, which never raises. |
| SumpClient.Interface.SendReadAndDelayCountSettings | sump/sump.py:292-303 | Writes the count message, which never raises. |
| SumpClient.Interface.SendFlagsSettings | sump/sump.py:305-318 | Writes the flags message, stopping after 0x82 when the flags byte is out of range. |
| SumpClient.Interface.SendSimpleTriggers | sump/sump.py:331-341 | Writes the `'Simple'` block: stage 0 from the settings with level 0 and start set, then the fixed stages 1 to 3. |
| SumpClient.Interface.SendComplexTriggers | sump/sump.py:342-345 | Writes all configurations, then all masks, then all values, stopping at the first exception. |
| SumpClient.Interface.SendTriggers | sump/sump.py:324-347 | Writes the trigger block that `trigger_enable` selects, or raises SumpTriggerEnableError for an unknown mode. |
| SumpClient.Interface.SendSettings | sump/sump.py:320-347 | Writes exactly the bytes `SendSettingsSpec` gives and raises its exception. Its layout and outcome are stated by `SumpDevice.SendSettingsOutcome` and `SumpDevice.SendSettingsLayout`. |
| SumpClient.Interface.Capture | sump/sump.py:159-189 | A negative `read_count` raises ValueError with nothing written or read and the timeout unchanged. Otherwise it sets the timeout and writes 0x01; a full stream gives the ordered samples followed by a reset, and a short one raises TypeError with no reset. |
| SumpSettings.StageDefaults | sump/settings.py:5-12 | A `TriggerStage` built with no keyword arguments has all seven attributes 0. |
| SumpSettings.StageOfSet | sump/settings.py:13-14 | Each keyword argument sets the attribute it names and leaves the others alone; unknown names change nothing. |
| SumpSettings.NewStage | sump/settings.py:5-14 | The `setattr` loop builds exactly the stage `StageOf` describes. |
| SumpSettings.LevelStagesShape | sump/settings.py:40 | `[TriggerStage(level=i) for i in xrange(n)]` has `max(n, 0)` stages, and stage `i` is all zero except for level `i`. |
| SumpSettings.MaxStagesOf | sump/settings.py:34-36 | The `trigger_max_stages` getter raises AttributeError exactly when `trigger_stages` does not exist yet, and otherwise returns its length. |
| SumpSettings.InitAsWrittenRaises | sump/settings.py:31-32 | As written, `Settings()` always raises AttributeError, because line 32 reads `trigger_max_stages` before `trigger_stages` exists. |
| SumpSettings.Settings.constructor | sump/settings.py:18-32 | With the defect corrected, a new object has the documented defaults and four level-numbered stages; keyword arguments are accepted and ignored, as in the source. |
| SumpSettings.Settings.SetTriggerMaxStages | sump/settings.py:38-40 | The setter replaces the stage list by `n` fresh level-numbered stages, after which the getter reports `max(n, 0)`. |
| SumpSettings.Settings.SampleRate | sump/settings.py:42-47 | ZeroDivisionError exactly for divider 0. Otherwise the floor of the clock over the divider, doubled (so even) with `demux`. |
| SumpInterface.WordPackedAgrees | sump/interface.py:85-102 | A mask or value message packs iff the stage is 0..63 and the word fits a signed 32-bit int, and it is then the first draft's five bytes. Otherwise it is a struct error with nothing written. |
| SumpInterface.ConfigPackedAgrees | sump/interface.py:109-120 | The configuration packs iff the stage is 0..63, the delay fits 16 bits and the level is a byte, and it is then the first draft's bytes. |
| SumpInterface.DividerPackedAgrees | sump/interface.py:131-135 | The divider message packs iff `1 <= divider <= 2^24`, and it then equals the first draft's divider message. |
| SumpInterface.CountPackedAgrees | sump/interface.py:145-150 | The count message packs iff both rounded-up quarter counts fit 16 bits, where the first draft truncates instead; it is then the same five bytes. |
| SumpInterface.FlagsPackedAgrees | sump/interface.py:163-170 | The flags message packs iff `channel_groups` is 0..63, and it is then the first draft's flags message. |
| SumpInterface.FixedStageOk | sump/interface.py:194-197 | A fixed stage below 64 is 15 bytes, never raises, and opens its three messages with its configuration, mask and value opcodes. |
| SumpInterface.ComplexStageOk | sump/interface.py:211-217 | One `'Complex'` stage raises nothing iff its record packs. It is then 15 bytes: mask, value, configuration, in that order. |
| SumpInterface.NoneBlockOk | sump/interface.py:192-197 | The corrected `'None'` loop over at most 64 stages raises nothing and gives each stage its own 15 bytes. |
| SumpInterface.ComplexBlockOk | sump/interface.py:210-217 | The `'Complex'` loop raises nothing iff every stage record packs; it is then 15 bytes per stage, in stage order. |
| SumpInterface.SendSettingsLayout | sump/interface.py:185-221 | A successful run is the divider, then the trigger block, then the counts and the flags, each equal to the first draft's message. |
| SumpInterface.NoneSettingsLength | sump/interface.py:185-221 | In `'None'` mode a valid run writes `15n + 15` bytes for `n` stages. |
| SumpInterface.UnknownModeAfterDivider | sump/interface.py:190-219 | With the error name corrected, an unknown mode raises SumpTriggerEnableError right after the divider message. |
| SumpInterface.ValuesMethodMissing | sump/interface.py:192-197 | As written, `'None'` mode with any stage raises AttributeError after the divider and stage 0's configuration and mask. The corrected method writes all `15n + 15` bytes. |
| SumpInterface.SelfSelfRaises | sump/interface.py:206 | As written, the `'Simple'` branch raises AttributeError on `self.self` for the default stages, where the corrected branch writes 60 bytes. |
| SumpInterface.ZeroHeadBlocks | sump/interface.py:198-209 | For any four stages whose first is all zero, the written `'Simple'` branch raises AttributeError; the corrected one writes 60 bytes. |
| SumpInterface.TriggerEnableErrorMissing | sump/interface.py:218-219 | As written, an unknown mode raises AttributeError because `errors` has no `TriggerEnableError`. The corrected branch raises SumpTriggerEnableError, which `sump/errors.py` defines. |
| SumpInterface.LanesAsWrittenShape | sump/interface.py:45-48 | With the test `channel_groups & (0b1 < i)`, lanes 0 and 1 are always read, and lanes 2 and 3 exactly when bit 0 is clear. |
| SumpInterface.LaneTestCounterexample | sump/interface.py:47 | For `channel_groups = 2` the written test reads all four lanes, while the intended `1 << i` reads lanes 0, 2 and 3. |
| SumpInterface.CaptureOfSample | sump/interface.py:50-63 | Sample `j` of a capture is reading `j` of the stream, or reading `n-1-j` with `latest_first`. |
| SumpInterface.CaptureFromSample | sump/interface.py:53-63 | The same for the sample list built from the stream, reversed or not. |
| SumpInterface.Interface.Reset | sump/interface.py:35-37 | `reset()` writes five zero bytes in one write. |
| SumpInterface.Interface.SendTriggerMask | sump/interface.py:85-90 | The packed mask message is written whole, or a struct error is raised with nothing written. |
| SumpInterface.Interface.SendTriggerValue | sump/interface.py:97-102 | The packed value message is written whole, or nothing is written. |
| SumpInterface.Interface.SendTriggerConfiguration | sump/interface.py:109-120 | The packed configuration is written whole, or nothing is written. |
| SumpInterface.Interface.SendDividerSettings | sump/interface.py:131-135 | The packed divider message is written whole, or nothing is written. |
| SumpInterface.Interface.SendReadAndDelayCountSettings | sump/interface.py:145-150 | The packed count message is written whole, or nothing is written. |
| SumpInterface.Interface.SendFlagsSettings | sump/interface.py:163-170 | The packed flags message is written whole, or nothing is written. |
| SumpInterface.Interface.SendFixedStages | sump/interface.py:194-197 | The loop of fixed stages writes what `Range` specifies, stopping at the first stage that raises. |
| SumpInterface.Interface.SendComplexStages | sump/interface.py:211-217 | The `enumerate` loop writes each stage's mask, value and configuration in turn, stopping at the first failure. |
| SumpInterface.Interface.SendSimpleTriggers | sump/interface.py:198-209 | The corrected `'Simple'` branch: stage 0 with level 0 and start set, then fixed stages over the rest of the list. |
| SumpInterface.Interface.SendTriggers | sump/interface.py:191-219 | Writes the trigger block `trigger_enable` selects, or raises SumpTriggerEnableError for an unknown mode. |
| SumpInterface.Interface.SendSettings | sump/interface.py:185-221 | Writes exactly the bytes `SendSettingsSpec` gives: divider, triggers, counts, flags, stopping at the first exception. |
| SumpInterface.Interface.BuildLanes | sump/interface.py:45-48 | The corrected lane loop gives exactly the enabled lanes of four groups, in ascending order. |
| SumpInterface.Interface.ReadSamples | sump/interface.py:53-57 | `n` samples in read order, consuming `n` bytes per lane, or TypeError on a short stream. |
| SumpInterface.Interface.CaptureSamples | sump/interface.py:50-63 | Sets the timeout and writes 0x01. The result is the capture the stream yields (reversed with `latest_first`); on success a reset follows. |
| SumpInterface.Interface.Capture | sump/interface.py:39-63 | An exception from sending settings ends the capture before 0x01, with nothing read and the timeout unchanged. Otherwise the output is the settings' bytes (when sent), 0x01 and, after a full capture, the five reset bytes; nothing follows 0x01 on a short stream. The timeout becomes the settings' timeout, the position advances by the bytes the capture reads, and the result is the capture the stream yields. |
| SumpInterface.Interface.IdString | sump/interface.py:69-75 | Writes 0x02 and returns the first four reply bytes in reverse order. |
| SumpInterface.Interface.Xon | sump/interface.py:77-79 | `xon()` writes 0x11. |
| SumpInterface.Interface.Xoff | sump/interface.py:81-83 | `xoff()` writes 0x13. |
| SumpInterface.Interface.QueryMetadata | sump/interface.py:223-263 | A reset, then 0x04. The result is the decoder's token list, the consumed bytes are the decoder's, and the timeout is restored. |
| Sump2Settings.OpcodeTables | sump2/settings.py:51-55 | The configuration, mask and value opcodes of stage `i` (0..3) are `0xC2+4i`, `0xC0+4i` and `0xC1+4i`, the first draft's opcodes. |
| Sump2Settings.DisabledShape | sump2/settings.py:78-85 | `disable()` gives one stage per stage number, each numbered, at level 0, always starting, with a zero mask and value. |
| Sump2Settings.SimpleShape | sump2/settings.py:87-101 | `simple()` gives stage 0 the caller's fields over the defaults (its number is always 0). Every later stage `i` is the no-trigger stage numbered and levelled `i`. |
| Sump2Settings.ComplexShape | sump2/settings.py:103-117 | `complex()` numbers and levels stage `i` as `i` unless the caller's stage `i` says otherwise, and takes every other field from the caller. Past the caller's list, stages never start the capture. |
| Sump2Settings.PackStageAgrees | sump2/settings.py:119-132 | A stage packs iff it exists, is one of the first four and its fields fit their formats. It is then the rewrite's configuration, mask and value messages, in that order, 15 bytes in all. |
| Sump2Settings.PackAllLayout | sump2/settings.py:134-135 | The trigger set packs iff each of its `n` stages does; it is then `15n` bytes with stage `i` at offset `15i`. |
| Sump2Settings.PackAllOk | sump2/settings.py:134-135 | The join raises exactly when some stage fails to pack, including a stage number past the list or past 3. |
| Sump2Settings.DefaultTriggersPack | sump2/settings.py:65-76 | The default trigger set has four simple stages and packs to 60 bytes. |
| Sump2Settings.PackAllPrefix | sump2/settings.py:134-135 | Packing looks at the first `n_stages` stages only; stages appended after them change nothing. |
| Sump2Settings.ListTriggersRaise | sump2/settings.py:65-117 | As written, `Triggers(list)` raises AttributeError exactly when the list is non-empty, because `complex` appends to a `self.stages` that `__init__` has not created. An empty list sets `n_stages` to 0, appends nothing and packs to no bytes. |
| Sump2Settings.ComplexAfterSimpleIsStale | sump2/settings.py:103-117 | As written, `complex()` on a trigger set that already has stages appends after them, so the packed bytes are still those of the old stages. |
| Sump2Settings.Triggers.constructor | sump2/settings.py:65-76 | The stage count, mode and stages `__init__` ends with for each kind of argument, with `complex` starting from an empty list. |
| Sump2Settings.Triggers.Disable | sump2/settings.py:78-85 | Sets the mode to `'None'` and the stages to the disabled set for the stage count. |
| Sump2Settings.Triggers.Simple | sump2/settings.py:87-101 | Sets the mode to `'Simple'` and the stages built from the given trigger, or from the keyword arguments when none is given. |
| Sump2Settings.Triggers.Complex | sump2/settings.py:103-117 | With the stale list corrected, sets the mode to `'Complex'` and the stages to a fresh list built from the caller's stages. |
| Sump2Settings.DividerPackAgrees | sump2/settings.py:156-160 | The divider packs iff `(divider - 1) mod 2^32 < 2^24`, always so for dividers 1..2^24, and it then equals the first draft's message. Otherwise it is a struct error. |
| Sump2Settings.RoundDownFacts | sump2/settings.py:168-171 | `x // 4 * 4` is a multiple of four within four below `x`, and rounding twice changes nothing. |
| Sump2Settings.CountPackShape | sump2/settings.py:162-173 | The count message packs iff the read count is 4..262147 and the delay count 0..262143. It then carries one less than the number of four-sample blocks read, and the number of delay blocks. |
| Sump2Settings.CountPackIdempotent | sump2/settings.py:162-173 | Packing again from the counts written back sends the same bytes. |
| Sump2Settings.FlagsPackAgrees | sump2/settings.py:175-180 | With boolean flags the message packs iff `channel_groups` is 0..63, and it is then the first draft's flags message. |
| Sump2Settings.SettingsPackLayout | sump2/settings.py:182-185 | A packed configuration is the divider, the trigger set, the counts and the flags back to back. |
| Sump2Settings.GivenTriggersPackRaises | sump2/settings.py:153-154 | As written, settings handed a `Triggers` object never set `self.triggers`, so `pack()` raises for every other setting: a struct error when the divider does not pack, AttributeError otherwise. |
| Sump2Settings.SettingsKeys | sump2/settings.py:142-152 | Every setting has a default, so every lookup in the merged dictionary succeeds. |
| Sump2Settings.Settings.constructor | sump2/settings.py:139-154 | The caller's settings override the defaults. With the defect corrected, a given trigger set is kept; otherwise a fresh one is built from the argument. |
| Sump2Settings.Settings.PackOkReaches | sump2/settings.py:182-185 | Settings that pack get as far as the counts, and their read count is at least 4. |
| Sump2Settings.Settings.PackCount | sump2/settings.py:162-173 | `_pack_count` rounds both counts down to multiples of four in place, and packs the same message from the old and the new counts. |
| Sump2Settings.Settings.Pack | sump2/settings.py:182-185 | `pack()` returns what the settings pack to and leaves that unchanged, so a repeated `pack()` gives the same bytes. The counts are rounded only when packing reaches them. |
| RS232.CaptureOfOk | sump2/devices/rs232.py:115-124 | A successful capture has fewer than six enabled lanes, a non-negative count and a long enough stream. It is `read_count` samples over the enabled lanes, in read order. |
| RS232.SampleFits | sump2/devices/rs232.py:119-123 | A sample over lanes below `m` is below 2^(8m). |
| RS232.CaptureBounds | sump2/devices/rs232.py:119-123 | Every captured sample is below 2^(8·max_channel_groups) and is zero in every disabled lane. Each enabled lane holds the byte the device sent for it. |
| RS232.NoLanes | sump2/devices/rs232.py:98-104 | With every group's bit set, no unpack function is built. |
| RS232.AllDisabledCapture | sump2/devices/rs232.py:106-124 | With every group disabled, nothing is read and every sample is 0. |
| RS232.UnpackLanes | sump2/devices/rs232.py:98-104 | The loop of `_build_unpack_functions` gives exactly the enabled lanes, in ascending order. |
| RS232.RS232Sump.constructor | sump2/devices/rs232.py:27-31 | After construction every setting (divider, both counts, demux, filter, channel groups, external, inverted, maximum groups) is the caller's value over the defaults. The trigger set is the default simple one of four stages, and no settings hash is recorded. |
| RS232.RS232Sump.Reset | sump2/devices/rs232.py:81-86 | A hard reset writes five zero bytes, a soft one a single zero. |
| RS232.RS232Sump.SendSettings | sump2/devices/rs232.py:65-70 | A hard reset, then the packed settings. The stored hash is exactly the bytes written and equals what the settings pack to now. An exception from packing leaves the hash as it was. |
| RS232.RS232Sump.CheckSettingsHash | sump2/devices/rs232.py:72-79 | False without a hash, with nothing packed and the counts untouched. Otherwise it is whether packing gives the stored hash, with packing's exception passed on, and both counts are rounded down to multiples of four exactly when packing reaches them. |
| RS232.RS232Sump.IdString | sump2/devices/rs232.py:88-90 | Writes 0x02 and returns the first four reply bytes reversed. |
| RS232.RS232Sump.Xon | sump2/devices/rs232.py:92-93 | `xon()` writes 0x11. |
| RS232.RS232Sump.Xoff | sump2/devices/rs232.py:95-96 | `xoff()` writes 0x13. |
| RS232.RS232Sump.BuildUnpackFunctions | sump2/devices/rs232.py:98-104 | The lanes are the enabled lanes of this object's settings. |
| RS232.RS232Sump.ReadInto | sump2/devices/rs232.py:117-123 | The array read holds the samples the stream gives, in read order, or TypeError when the stream ends early. |
| RS232.RS232Sump.Prepare | sump2/devices/rs232.py:106-109 | Settings are resent iff the stored hash differs from what they pack to. Afterwards the hash is current and the read count is a multiple of four, at least 4. Both counts end rounded down to multiples of four when packing reaches them, and unchanged otherwise. |
| RS232.RS232Sump.Capture | sump2/devices/rs232.py:106-124 | Resend if needed, then 0x01 and the capture the stream gives. A full capture consumes exactly `read_count` bytes per enabled lane, a short stream consumes it all, and IndexError or ValueError read nothing. An exception from packing ends it before 0x01, with the hash and the position unchanged. |
| RS232.RS232Sump.Start | sump2/devices/rs232.py:115-124 | The part after the settings: 0x01 when the capture can start, then the samples. A full capture consumes exactly `read_count` bytes per enabled lane, a short stream raises TypeError having consumed all of it, and the IndexError and ValueError paths read nothing. |
| Ols.ReadString | sump2/devices/ols.py:12-18 | Reads up to and including the first NUL and returns the bytes before it. With no NUL the loop never ends. |
| Ols.ReadUint | sump2/devices/ols.py:21-22 | Four bytes read as an unsigned big-endian number, or a struct error when fewer arrive. |
| Ols.ReadUbyte | sump2/devices/ols.py:25-26 | One byte, or a struct error at end of stream. |
| Ols.MetadataKeysTable | sump2/devices/ols.py:29-40 | The table knows exactly keys 1-3 (strings), 0x20-0x24 (32-bit numbers) and 0x40-0x41 (bytes). |
| Ols.KeyNames | sump2/devices/ols.py:29-40 | No two keys share a field name. |
| Ols.MetadataWellKinded | sump2/devices/ols.py:84-96 | Whatever the device sends, every field read holds a value of its key's kind. |
| Ols.ValueOfEntry | sump2/devices/ols.py:12-26 | A field's value is read back from its encoding, whatever follows. |
| Ols.MetadataEntry | sump2/devices/ols.py:88-95 | One field's bytes are read back as that field, whatever follows. |
| Ols.MetadataRoundTrip | sump2/devices/ols.py:84-96 | A reply of valid fields ended by 0x00 is read back as the dictionary those fields give in order, and the terminator is consumed. |
| Ols.ApplyLast | sump2/devices/ols.py:95 | A field sent more than once holds the value it was last sent with. |
| Ols.ApplyKeeps | sump2/devices/ols.py:95 | Fields with other names leave an entry alone. |
| Ols.RepeatedKeyOverwrites | sump2/devices/ols.py:88-95 | The same key sent twice leaves the second value in the dictionary. |
| Ols.UnknownKeyRaises | sump2/devices/ols.py:89-93 | A key outside the table, or end of stream where a key is due, raises ValueError. |
| Ols.ReadField | sump2/devices/ols.py:94-95 | Reads one field with the reader the table names for it. |
| Ols.ReadMetadata | sump2/devices/ols.py:86-96 | The loop returns the dictionary the reply specifies and consumes the bytes it says. |
| Ols.ReadEntry | sump2/devices/ols.py:88-95 | One pass either ends the loop with the reply's result, or consumes a field and leaves the reply's outcome unchanged. |
| Ols.EightProbeLanes | sump2/devices/ols.py:74-76 | `channel_groups = 0b1110` enables lane 0 only. |
| Ols.SixteenProbeLanes | sump2/devices/ols.py:77-79 | `0b1100` enables lanes 0 and 1. |
| Ols.ThirtyTwoProbeLanes | sump2/devices/ols.py:80-82 | `0` enables all four lanes. |
| Ols.AutoconfigFits | sump2/devices/ols.py:68-82 | For 8, 16 or 32 probes the configuration enables one lane per eight probes and reads no more samples than the sample memory holds. |
| Ols.SampleMemoryOfReply | sump2/devices/ols.py:70 | The sample memory from any reply is a size, never negative. |
| Ols.OLS.constructor | sump2/devices/ols.py:44-46 | Binds the client, with the maximum sample rate unknown. |
| Ols.OLS.Metadata | sump2/devices/ols.py:84-96 | Writes 0x04 and returns the dictionary read from the reply. |
| Ols.OLS.Autoconfigure | sump2/devices/ols.py:68-82 | A failed metadata read changes no setting. Otherwise the delay becomes 0, and for 8, 16 or 32 probes `channel_groups` and `read_count` follow the probe count; any other count leaves them. |
| Parse.UnpackErrors | sump2/ops/parse.py:23-32 | Whether `unpack` raises depends on the spec alone: ValueError for a tuple of the wrong size or a negative start or index, TypeError for a negative length, NotImplementedError for a dict. |
| Parse.UnpackField | sump2/ops/parse.py:27-28 | `(start, length)` gives `(data >> start) mod 2^length`, always in `[0, 2^length)`. |
| Parse.UnpackBit | sump2/ops/parse.py:31-32 | An index gives that bit of the sample, 0 or 1. |
| Parse.FieldRoundTrip | sump2/ops/parse.py:27-28 | A field placed at bit `start` between any lower and higher bits is read back unchanged. |
| Parse.Column | sump2/ops/parse.py:42-43 | Over a capture: the spec's exception, or the field of every sample. |
| Parse.SpecTable.Update | sump2/ops/parse.py:38 | `settings.update(kwargs)` adds the keyword specs over the existing ones. |
| Parse.Parse | sump2/ops/parse.py:35-44 | The keyword specs are merged into the caller's dictionary, or a new one. The result raises iff some spec is bad, and otherwise has one column per key. |
| Parse.Columns | sump2/ops/parse.py:40-44 | The loop over the keys gives exactly one correct column per key, or the exception of a bad spec. |

## Left out

- Opening and closing the serial port is not modelled: `serial.Serial(...)`, `close()` in sump/sump.py:393-395 and sump/interface.py:265-268, `open_interface` in sump/interface.py:271-278, and `connect`, `disconnect` and `__del__` in sump2/devices/rs232.py:47-63. A port is a value of the model, so each client starts connected.
- `SumpInterface.Interface.constructor` binds a port and a settings object and nothing more. The `__init__` of sump/interface.py:23-33 opens a port and queries metadata, and it leaves `self.settings` as `None` at line 33 whatever it was given. That `__init__` is left out with the rest of the port lifecycle.
- `RS232.RS232Sump.constructor` models sump2/devices/rs232.py:27-31 only. The port, baud and timeout lookups of lines 32-45 belong to the serial lifecycle above.
- Real time is not modelled. A read that would block until the timeout returns the bytes that are there, and the timeout is kept only as a field.
- Logging is left out, because it writes nothing to the device. That covers the `sys.stderr` messages of sump/sump.py:167-168, `_trace_control` and `set_logfile` (sump/sump.py:203-215) and the `logging` calls.
- Saving captures (sump/fio.py, `Interface.save`), sump2/capture/capture.py and the package `__init__` files are not part of this model. They are file I/O and glue outside the protocol.
- `get_sample_rate` and `set_sample_rate` of sump2/devices/ols.py:50-66 are left out. They work in floating point, from a maximum sample rate the device never reports in this code.
- `Ols.OLS.constructor` binds the client. The call to `_autoconfigure` that `__init__` makes when no settings are given (sump2/devices/ols.py:47-48) is the separate method `Ols.OLS.Autoconfigure`.
- The numpy element types are not modelled; samples are unbounded integers. In sump2/devices/rs232.py:19-21 the element type is chosen by the number of enabled lanes rather than by the highest one, so a capture whose only lane is lane 3 is stored in a 16-bit array and would lose its top byte. The model only keeps the IndexError that six or more lanes raise there. In sump/sump.py the array is `uint32`, which every four-lane sample fits.
- `Parse.Column` and `Parse.Parse` work on Python integers. A negative start or bit index raises ValueError in the model, as `>>` does on a Python int, but numpy's `>>` on the int64 array does not raise and yields a column. The model also does not capture numpy's 64-bit wrap-around, the order of the structured array's columns, or `int(spec)` on a value that is not a number.
- Run-length decoding is only a TODO in sump2/devices/ols.py:98 and is not modelled.
- Python's dynamic typing is replaced by types. Dispatch by `hasattr` and `isinstance` becomes the argument datatypes, and dictionaries of settings hold integers, with True and False as 1 and 0.

## Findings

| source | as written | input that shows it | evidently intended | confidence | as-written member | corrected member |
|---|---|---|---|---|---|---|
| sump/settings.py:31-32 | The stage list is built from `trigger_max_stages`, which reads the stage list before it exists. | `Settings()` with no arguments raises AttributeError. | Four default stages at levels 0-3. | not executed | SumpSettings.InitAsWrittenRaises | SumpSettings.Settings.constructor |
| sump/interface.py:197 | `'None'` mode calls `_send_trigger_values`, but the method is named `_send_trigger_value` at line 97. | Default settings with `trigger_enable = 'None'` raise AttributeError after stage 0's mask. | Every stage sent as a fixed stage, then the counts and flags. | not executed | SumpInterface.ValuesMethodMissing | SumpInterface.Interface.SendSettings |
| sump/interface.py:206 | `'Simple'` mode reads `self.self.settings`. | Four default stages with `trigger_enable = 'Simple'` raise AttributeError. | The loop over stages 1 and up of `self.settings`. | not executed | SumpInterface.SelfSelfRaises | SumpInterface.Interface.SendSimpleTriggers |
| sump/interface.py:219 | An unknown mode raises `errors.TriggerEnableError`, which sump/errors.py does not define (its name is SumpTriggerEnableError). | `trigger_enable = 'Serial'` raises AttributeError. | SumpTriggerEnableError. | not executed | SumpInterface.TriggerEnableErrorMissing | SumpInterface.Interface.SendTriggers |
| sump/interface.py:47 | The lane test is `channel_groups & (0b1 < i)`, a comparison, not a shift. | `channel_groups = 2` reads lanes 0-3 where lane 1 is disabled. | `channel_groups & (1 << i)`: lanes 0, 2 and 3. | not executed | SumpInterface.LaneTestCounterexample | SumpInterface.Interface.BuildLanes |
| sump2/settings.py:103-117 | `complex` appends to `self.stages`, which `__init__` has not created for a list argument. | `Triggers([{}])` (any non-empty list) raises AttributeError. | A fresh stage list built from the caller's stages. | not executed | Sump2Settings.ListTriggersRaise | Sump2Settings.Triggers.Complex |
| sump2/settings.py:103-117 | `complex` on a trigger set that already has stages appends after them. | `simple()` then `complex([...])`: `pack()` still sends the simple stages. | The complex stages replace the old ones. | not executed | Sump2Settings.ComplexAfterSimpleIsStale | Sump2Settings.Triggers.Complex |
| sump2/settings.py:153-154 | A `Triggers` object handed to `Settings` is never stored in `self.triggers`. | `Settings(triggers=Triggers(None))` raises AttributeError in `pack()`. | The given trigger set is kept and packed. | not executed | Sump2Settings.GivenTriggersPackRaises | Sump2Settings.Settings.constructor |
