# ARXControl in Dafny

A model of the ARXControl client for the ARX control unit (ACU) of a radio
receiver chain. The client talks to the unit over a serial line using a short
text protocol. Every command and reply is an envelope
`<code>[,<arg1>[|<arg2>]];`. Before each command the client polls the unit
with a one-byte readiness probe.

The model follows the shape of the Python code:

- **Codes.dfy**: protocol constants.
- **Codec.dfy**: the envelope.
  - `unpack` is `Codec.Unpack`, built on models of `str.strip`, `str.split` and `int()`.
  - The unit's `_build_resp` is `Codec.BuildResp`.
  - The client's command builder is `Codec.MakeCmd`.
  - Round-trip lemmas show that `Unpack` inverts the command builder, and the response builder for integer or absent payloads. A text payload is not inverted: text holding `,`, `|` or `;` is cut apart, and text that reads as an integer comes back as a number.
- **Frame.dfy**: the 4-byte state frame of the test vectors.
  - The layout is the START marker, then the two attenuator nibbles, then the filterbank and FEE power nibbles, then an XOR checksum.
  - Proved: `Encode`/`Decode` round trips, detection of any single corrupted byte or flipped bit, and both test vectors.
- **Session.dfy**: the serial link and `Connection`.
  - `Connection.Enter` is the polling loop of `__enter__`. `Connection.Exit` resets the failure counter.
  - Both are proved against the function `Poll`.
- **Sender.dfy**: `ARX._send` as functions over the link state.
  - `SendLoop` is the retry loop and `Transact` is one whole call.
  - They are stated for any reading of the acknowledgement test, so the intended test and the test as written share one definition.
- **Properties.dfy**: the specification of the property setters and getters, `roach` and `write_flash`.
  - Each setter has a plan: the write commands it issues and the ValueError raised after them.
  - `Run` issues a plan through `_send`.
  - `Query` and `QueryAll` cover the getters. `QueryAllReadsBack` shows that they return the integers a unit acknowledges with, in order.
- **Client.dfy**: the `ARX` object as a class.
  - Its methods run step by step against the `Connection`.
  - Each is proved to return, and leave the link, exactly as the functions of Sender.dfy and Properties.dfy say.
- **Mock.dfy**: the simulated control unit of the test suite (`MockACU`).
  - `React` is the handlers and `Receive` is `write`.
  - The class `MockAcu` is proved against them.
  - Lemmas describe what each handler acknowledges and stores. A command the client builds reaches its handler with its integer arguments only when its code is below the largest registered code: the unit dispatches on `int(command) < max(self.responses)`, so the command under the largest code is ignored (`Mock.LargestCodeNeverDispatched`).

The link is a value `Link(failures, inbox, sent)`:

- `failures` is the handshake failure counter.
- `inbox` holds the replies the device will give.
- `sent` is everything written so far.

A read takes the next reply whole. A read with no reply left returns the empty string, as a timeout does.

## Model

| member | source | states |
|---|---|---|
| `Codec.TrimLeftRemovesOnly` | ARXControl/arx.py:12 | left stripping of a character set removes only a leading run of characters in the set and stops at the first other character |
| `Codec.TrimRightRemovesOnly` | ARXControl/arx.py:12 | right stripping of a character set removes only a trailing run of characters in the set and stops at the last other character |
| `Codec.Strip` | ARXControl/arx.py:12 | `str.strip(chars)`: the result is no longer than the input, neither starts nor ends with a character of the set, and holds only characters of the input; `Codec.StripPadding` shows that exactly the padding is removed |
| `Codec.StripTerminated` | ARXControl/arx.py:12 | a string that neither starts nor ends with `;` comes back unchanged from stripping `;` after one `;` is appended |
| `Codec.StripUnpadded` | ARXControl/arx.py:12 | a string whose first and last characters are outside the set is left unchanged by stripping |
| `Codec.StripPadding` | ARXControl/arx.py:12 | stripping removes any padding drawn from the set on both sides of an unpadded string, and nothing else |
| `Codec.Split` | ARXControl/arx.py:13 | `split` yields at least one piece; no piece contains the separator; the pieces joined with the separator give the input back |
| `Codec.SplitJoin` | ARXControl/arx.py:13 | splitting a join of separator-free pieces gives the same pieces, so split and join are inverse |
| `Codec.SplitPrefix` | ARXControl/arx.py:17 | a separator-free prefix stays in the first piece of a split |
| `Codec.ParseLiteral` | ARXControl/arx.py:15 | parsing without surrounding whitespace succeeds exactly on an optionally signed non-empty run of decimal digits |
| `Codec.ParseInt` | ARXControl/arx.py:15 | `int()` of a string strips the ASCII whitespace around it, then succeeds exactly on an optionally signed non-empty run of decimal digits |
| `Codec.ParseIntPadded` | ARXControl/arx.py:20 | `int()` reads an integer literal back unchanged whatever ASCII whitespace surrounds it |
| `Codec.ParseIntInnerSpace` | ARXControl/arx.py:20 | whitespace inside a literal is not stripped: `int("1 2")` fails |
| `Codec.IntToString` | tests/mocks/__init__.py:65 | `str()` of an integer is an integer literal and contains no comma, vertical bar or semicolon |
| `Codec.ParseIntToString` | tests/mocks/__init__.py:65 | `int(str(n)) == n` for every integer, negative ones included |
| `Codec.ToArgs` | ARXControl/arx.py:18-22 | each argument is converted in place and in order; an argument `int()` rejects stays text |
| `Codec.Unpack` | ARXControl/arx.py:4-26 | `unpack` raises only on a code field with no comma that `int()` rejects; an argument list it returns has at least one entry, and an entry stays text only when `int()` rejects it and it holds no `|`; `Codec.UnpackBare` and `Codec.UnpackWithArgs` give its result in full |
| `Codec.UnpackBare` | ARXControl/arx.py:4-26 | an envelope without `,` gives its parsed code and no argument list, or BadCode when the code is not an integer |
| `Codec.UnpackWithArgs` | ARXControl/arx.py:4-26 | with a `,`, the code is the first field, the arguments are the bar-separated pieces of the second field converted in order, and further fields are ignored |
| `Codec.UnpackCodeAndBlock` | ARXControl/arx.py:4-26 | a code, a comma and bar-separated arguments unpack to the code and the converted arguments |
| `Codec.BuildResp` | tests/mocks/__init__.py:64-69 | the reply has a `,` exactly when a payload is attached: any integer including 0, or non-empty text |
| `Codec.UnpackBuildRespNone` | tests/mocks/__init__.py:64-69 | `unpack` of a bare reply gives its code and no argument list |
| `Codec.UnpackBuildRespNum` | tests/mocks/__init__.py:64-69 | `unpack` of a reply with an integer payload gives its code and that integer, zero included |
| `Codec.MakeCmd` | tests/mocks/__init__.py:72-79 | a command ends in its only `;` and has a `,` exactly when it has arguments; `Codec.UnpackMakeCmd` is its inverse |
| `Codec.UnpackMakeCmd` | ARXControl/arx.py:91 | `unpack` of every command the client builds gives its code and its integer arguments, and no list when it has none |
| `Frame.Checksum` | tests/test_ARXControl.py:12-50 | the checksum makes the XOR of all four frame bytes zero |
| `Frame.PowerNibble` | tests/test_ARXControl.py:25 | the flag of channel k is bit 3-k of the nibble (channel 0 in the most significant bit) |
| `Frame.PowerFlags` | tests/test_ARXControl.py:25 | four flags, one per channel; with `Frame.PowerNibbleRoundTrip` and `Frame.PowerRoundTrip` it is the inverse of `PowerNibble` |
| `Frame.Encode` | tests/test_ARXControl.py:12-50 | every encoded state is a well-formed frame: 4 bytes, START marker, matching checksum |
| `Frame.Decode` | tests/test_ARXControl.py:12-50 | a buffer is accepted exactly when it is well-formed, and then it yields four power flags |
| `Frame.DecodeEncode` | tests/test_ARXControl.py:12-50 | decoding an encoded state gives the same state |
| `Frame.EncodeDecode` | tests/test_ARXControl.py:12-50 | every accepted frame is the encoding of what it decodes to |
| `Frame.PowerRoundTrip` | tests/test_ARXControl.py:25 | the four FEE flags survive packing into the low nibble, channel 0 in its top bit |
| `Frame.ByteCorruptionDetected` | tests/test_ARXControl.py:74-77 | XOR-ing any one byte of an accepted frame with a non-zero mask makes it rejected |
| `Frame.SingleBitFlipDetected` | tests/test_ARXControl.py:74-77 | flipping any one of the 32 bits of an accepted frame makes it rejected |
| `Frame.TestState1` | tests/test_ARXControl.py:12-30 | `0xfff01f10` has checksum 0x10 and is levels 15 and 0, filterbank 1, all channels on |
| `Frame.TestState2` | tests/test_ARXControl.py:32-50 | `0xff0f0fff` has checksum 0xFF and is levels 0 and 15, filterbank 0, all channels on |
| `Session.Poll` | ARXControl/connection.py:23-35 | the handshake writes 1 to `MaxRetries - failures` polls and succeeds exactly on the first ready reply; every earlier reply was not ready; on failure the counter ends at `MaxRetries` |
| `Session.FailedEntryBlocksNext` | ARXControl/connection.py:24-33 | after a failed entry the counter stays at its limit, so the next entry fails at once without a poll |
| `Session.Serial.constructor` | ARXControl/connection.py:16-21 | the port starts with the replies the device will give and nothing written |
| `Session.Serial.Write` | ARXControl/connection.py:25 | a write appends its data to what was written and reads nothing |
| `Session.Serial.Read` | ARXControl/connection.py:27 | a read returns the next reply whole, or nothing once none is left, and consumes it |
| `Session.Connection.Enter` | ARXControl/connection.py:23-35 | the loop's result, counter, written polls and consumed replies are those of `Poll` |
| `Session.Connection.Exit` | ARXControl/connection.py:37-38 | the failure counter is zero afterwards |
| `Sender.Classify` | ARXControl/arx.py:92-96 | the acknowledgement test as intended; no contract of its own: `Sender.ClassifyBuildResp` shows that it accepts exactly the unit's kACK replies, with their payload, and refuses the others |
| `Sender.ClassifyAsWritten` | ARXControl/arx.py:92-96 | the acknowledgement test as written never yields an acknowledgement |
| `Sender.ClassifyBuildResp` | ARXControl/arx.py:92-94 | a reply built by the unit is an acknowledgement exactly when its code is kACK, and carries its payload |
| `Sender.SendLoop` | ARXControl/arx.py:87-101 | the loop writes the command at least once and at most `MaxRetries` times; with no attempts left it raises IOError with the last payload |
| `Sender.SendLoopRetriesOnRefusal` | ARXControl/arx.py:90-96 | every reply before the last one read was a refusal |
| `Sender.SendLoopEnds` | ARXControl/arx.py:87-101 | the result is read off the last reply: the payload of an acknowledgement; BadReply for an unreadable reply; otherwise all attempts were refused and IOError carries the command and the last payload |
| `Sender.AllRefusedRaises` | ARXControl/arx.py:99-101 | when every reply is refused, the loop makes all its attempts and raises IOError with the last payload |
| `Sender.Transact` | ARXControl/arx.py:87-101 | one call of `_send`; no contract of its own: `Sender.TransactWrites` gives what it writes and consumes and how it leaves the counter, `Sender.SendLoopEnds` its result |
| `Sender.Call` | ARXControl/arx.py:77-101 | `_send(*args)` on the command string the client builds; no contract of its own: `Sender.CallAcked` gives a call answered at once |
| `Sender.CallAcked` | ARXControl/arx.py:77-101 | a call whose first poll finds the unit ready and whose first reply is an acknowledgement writes one poll and one command, consumes two replies, returns the payload and resets the counter |
| `Sender.TransactWrites` | ARXControl/arx.py:88-101 | one call writes at most `MaxRetries` polls and then at most `MaxRetries` commands; no command after a failed handshake; the counter is zero afterwards unless the handshake failed |
| `Sender.NoAckNoReturn` | ARXControl/arx.py:90-101 | when no reply counts as an acknowledgement, the loop always ends in an exception |
| `Sender.NoAckCallRaises` | ARXControl/arx.py:87-101 | when no reply counts as an acknowledgement, every call of `_send` raises |
| `Sender.AsWrittenNeverAcks` | ARXControl/arx.py:94 | the identity test as written accepts no reply as an acknowledgement |
| `Sender.AsWrittenNeverReturns` | ARXControl/arx.py:90-101 | with the test as written, the loop never returns normally |
| `Sender.AsWrittenEveryCallRaises` | ARXControl/arx.py:87-101 | with the test as written, every call of `_send` raises, whatever the device replies |
| `Sender.BareAckClassified` | ARXControl/arx.py:94 | the bare kACK reply `1;` is an acknowledgement as intended and a refusal as written |
| `Sender.AckIgnoredAsWritten` | ARXControl/arx.py:90-101 | on replies `1;` the intended test returns after one write; the test as written makes three writes and raises IOError |
| `Properties.Trunc` | ARXControl/arx.py:163 | `int()` of a number truncates toward zero |
| `Properties.CheckedWrite` | ARXControl/arx.py:160-168 | the range test comes first, then the integrality test; an accepted value gives exactly one write whose last argument equals the value; a refused value gives no write and OutOfRange or NotIntegral |
| `Properties.FilterPlan` | ARXControl/arx.py:160-168 | the filter setter accepts exactly 0, 1 and 2 and then writes one FILTER_WRITE of that value; otherwise it writes nothing |
| `Properties.AttenPlan` | ARXControl/arx.py:180-188 | an attenuator setter accepts exactly the integral values 0..15 and then writes one ATTEN_WRITE of the attenuator index and the value; otherwise it writes nothing |
| `Properties.EepromPlan` | ARXControl/arx.py:220-228 | the EEPROM offset setter accepts exactly the integral values from 0 to the bound and then writes one EEPROM_WRITE of the value; otherwise it writes nothing |
| `Properties.FilterAndAttenDifferOnlyInRange` | ARXControl/arx.py:160-188 | the filter and attenuator setters accept the same values up to 2 and send the same level; from 2 up to 15 only the attenuators accept |
| `Properties.FeeWrites` | ARXControl/arx.py:143-145 | one FEE_WRITE per channel, in channel order, each with its own level |
| `Properties.FirstBad` | ARXControl/arx.py:121-131 | the position of the first element that is not 0/1 after `int()`; every element before it is 0/1 |
| `Properties.PowerPlan` | ARXControl/arx.py:117-148 | the power setter writes at most four FEE_WRITEs, the k-th to channel k with level 0 or 1, and all four when it raises nothing |
| `Properties.PowerScalar` | ARXControl/arx.py:136-148 | a number is accepted exactly when it truncates to 0 or 1, and then writes all four channels in order; otherwise nothing is written |
| `Properties.PowerIterable` | ARXControl/arx.py:119-131 | four values write channels 0.. in order up to the first bad one, then raise there without undoing earlier writes |
| `Properties.PowerIterableAllBinary` | ARXControl/arx.py:119-128 | four binary values are all written, each to its own channel |
| `Properties.PowerIterableAt` | ARXControl/arx.py:121-131 | element `i` is the `i`-th write when binary, and otherwise the point where the setter stops with its refusal |
| `Properties.PowerIterableWrongLength` | ARXControl/arx.py:119-135 | an iterable of any other length than four raises before anything is written |
| `Properties.SendAll` | ARXControl/arx.py:117-228 | the writes of a setter in order; no contract of its own: `Properties.RunStep` gives one step and `Properties.AcceptedSendsOnce` the one-write case |
| `Properties.Run` | ARXControl/arx.py:117-228 | a setter that issues no write leaves the link untouched and reports its ValueError, if any |
| `Properties.RunStep` | ARXControl/arx.py:121-131 | the first write's exception ends the setter; otherwise the rest of the setter follows on the new link |
| `Properties.RejectedSendsNothing` | ARXControl/arx.py:160-168 | a refused value raises ValueError and leaves the link exactly as it was |
| `Properties.AcceptedSendsOnce` | ARXControl/arx.py:160-168 | an accepted value costs exactly one call of `_send`, whose outcome is the setter's |
| `Properties.AsWrittenSettersRaise` | ARXControl/arx.py:160-228 | with the acknowledgement test as written, every checked setter raises, even on an accepted value |
| `Properties.Query` | ARXControl/arx.py:150-158 | a getter leaves the link as its call of `_send` does; it returns an integer exactly when `_send` returned a payload whose first argument is one, and then that argument; an exception of `_send` passes through, and any other payload is a bad response |
| `Properties.QueryReadsBack` | ARXControl/arx.py:150-158 | a getter reads back the integer the unit acknowledges with (`_build_resp(kACK, n)`), after one poll and one command |
| `Properties.QueryAll` | ARXControl/arx.py:111-115 | successful readings have one integer per request |
| `Properties.QueryAllStep` | ARXControl/arx.py:112-114 | one more reading is appended to those collected so far, or its exception ends the run |
| `Properties.FeeReads` | ARXControl/arx.py:112-113 | one FEE_READ per channel, in channel order |
| `Properties.QueryAllReadsBack` | ARXControl/arx.py:111-115 | getters answered at once by acknowledgements carrying integers return those integers in order, writing one poll and one command each |
| `Properties.PowerReadsBack` | ARXControl/arx.py:104-115 | the `power` getter returns the four FEE levels the unit acknowledges, channel by channel |
| `Properties.Roach` | ARXControl/arx.py:230-236 | a state outside 0..1 raises ValueError and sends nothing; otherwise one ROACH_WRITE: a failed `_send` passes its error on, a reply with no first argument is a bad response, and `state` is returned exactly when the first argument is ROACH_WRITTEN, None otherwise |
| `Properties.WriteFlash` | ARXControl/arx.py:239-241 | one FLASH_WRITE; the result is true exactly when `_send` returns |
| `Client.Arx.constructor` | ARXControl/arx.py:45-55 | the object holds its connection and the acknowledgement test as intended |
| `Client.Arx.Exchange` | ARXControl/arx.py:87-101 | the retry loop returns what `SendLoop` gives, writes and consumes as many commands and replies as it does, and resets the counter |
| `Client.Arx.Send` | ARXControl/arx.py:77-101 | the result and the new link are those of one call (`Sender.Call`) |
| `Client.Arx.ReadInt` | ARXControl/arx.py:157 | the result and the link are those of `Query` |
| `Client.Arx.Power` | ARXControl/arx.py:103-115 | the four channel readings and the link are those of `QueryAll` over the four FEE_READs |
| `Client.Arx.SetChecked` | ARXControl/arx.py:180-188 | the shared setter body has the effect `Run` gives to `CheckedWrite` |
| `Client.Arx.SetFilter` | ARXControl/arx.py:160-168 | has the effect of the filter setter's plan (0..2) |
| `Client.Arx.SetAtten0` | ARXControl/arx.py:180-188 | has the effect of attenuator 0's plan (0..15) |
| `Client.Arx.SetAtten1` | ARXControl/arx.py:200-208 | has the effect of attenuator 1's plan (0..15) |
| `Client.Arx.SetEepromOffset` | ARXControl/arx.py:220-228 | has the effect of the EEPROM offset's plan, bounded by the object's limit |
| `Client.Arx.Filter` | ARXControl/arx.py:150-158 | one FILTER_READ, read as in `Query` |
| `Client.Arx.Atten0` | ARXControl/arx.py:170-178 | one ATTEN_READ of attenuator 0, read as in `Query` |
| `Client.Arx.Atten1` | ARXControl/arx.py:190-198 | one ATTEN_READ of attenuator 1, read as in `Query` |
| `Client.Arx.EepromOffset` | ARXControl/arx.py:210-218 | one EEPROM_READ, read as in `Query` |
| `Client.Arx.SetPower` | ARXControl/arx.py:117-148 | has the effect of `PowerPlan` for an iterable or a single value |
| `Client.Arx.SetPowerEach` | ARXControl/arx.py:119-135 | the element-by-element loop has the effect of `PowerPlan` on the iterable |
| `Client.Arx.SetPowerAll` | ARXControl/arx.py:136-148 | the four-channel loop has the effect of `PowerPlan` on the number |
| `Client.Arx.Roach` | ARXControl/arx.py:230-236 | the result and the link are those of `Properties.Roach` |
| `Client.Arx.WriteFlash` | ARXControl/arx.py:239-241 | the result and the link are those of `Properties.WriteFlash` |
| `Mock.CodeOf` | tests/mocks/__init__.py:51-59 | the key of each handler in `self.responses`; no contract of its own: `Mock.HandlerFor` finds the handler whose key a code is, and finds none exactly when no handler has that key |
| `Mock.HandlerFor` | tests/mocks/__init__.py:51-59 | the handler found is registered under that code; no handler means no handler has that code |
| `Mock.MaxCode` | tests/mocks/__init__.py:202 | `max(self.responses)` bounds every registered code and is one of them |
| `Mock.Wire` | tests/mocks/__init__.py:64-69 | the reply string of an answer; no contract of its own: `Mock.WireClassified` shows how the client reads it |
| `Mock.WireClassified` | tests/mocks/__init__.py:64-69 | the client reads every acknowledgement the unit builds as one carrying its value, and every refusal as a refusal carrying its reason |
| `Mock.React` | tests/mocks/__init__.py:82-161 | every handler keeps four FEE levels and two attenuator levels |
| `Mock.Dispatch` | tests/mocks/__init__.py:202-203 | dispatching keeps the state's shape |
| `Mock.Receive` | tests/mocks/__init__.py:192-203 | a write keeps the state's shape or raises |
| `Mock.FeeWriteAcknowledged` | tests/mocks/__init__.py:95-106 | FEE_WRITE answers kACK with FEE_WRITTEN exactly for channels 0..3 and stores the level as given, no other channel changing; any other channel is refused with FEE_RANGE and the state is kept |
| `Mock.FeeReadAcknowledged` | tests/mocks/__init__.py:86-92 | FEE_READ of channels 0..3 answers kACK with the stored level; other channels are refused with FEE_RANGE; the state is kept |
| `Mock.FilterWriteAcknowledged` | tests/mocks/__init__.py:112-118 | FILTER_WRITE answers kACK with FILTER_WRITTEN exactly for 0..3 and only then changes the filterbank; otherwise it is refused with FILTER_RANGE |
| `Mock.AttenWriteAcknowledged` | tests/mocks/__init__.py:133-144 | ATTEN_WRITE answers kACK with ATTEN_WRITTEN exactly for attenuators 0 and 1 and stores the level unchecked; any other index is refused with DATA_PARSE_FAIL |
| `Mock.AttenReadAcknowledged` | tests/mocks/__init__.py:121-131 | ATTEN_READ of attenuator 0 or 1 answers kACK with the stored level; any other index is refused with DATA_PARSE_FAIL; the state is kept |
| `Mock.SettingsReadAcknowledged` | tests/mocks/__init__.py:109-110 | FILTER_READ answers kACK with the stored filterbank and EEPROM_READ with the stored offset (lines 147-148), whatever their arguments |
| `Mock.EepromWriteAcknowledged` | tests/mocks/__init__.py:150-161 | EEPROM_WRITE answers kACK with EEPROM_WRITTEN exactly for offsets 1..1023 and only then changes the offset; otherwise it is refused with EEPROM_RANGE |
| `Mock.ReadsKeepState` | tests/mocks/__init__.py:82-148 | the ready and read handlers never change the state |
| `Mock.MissingArgumentsRefused` | tests/mocks/__init__.py:86-161 | FEE_WRITE, ATTEN_WRITE and EEPROM_WRITE without arguments are refused with DATA_PARSE_FAIL; FILTER_WRITE and FEE_READ raise |
| `Mock.ClientCommandDispatched` | tests/mocks/__init__.py:192-203 | each command the client builds whose code is below the largest registered one runs the handler registered under its code, with its integer arguments; an unregistered code below the maximum raises; a code at or above it changes nothing |
| `Mock.ClientArgumentsSeen` | tests/mocks/__init__.py:87-98 | the handlers read the first of the client's arguments as the integer sent and the second as given; a command without arguments has no first argument |
| `Mock.LargestCodeNeverDispatched` | tests/mocks/__init__.py:202 | the handler under the largest code never runs; its command leaves the state and the pending reply as they were |
| `Mock.FeeWriteThenRead` | tests/mocks/__init__.py:86-106 | a FEE_WRITE of a level to channel 0..3 is acknowledged, and a FEE_READ of that channel then answers with that level |
| `Mock.PollUnparsable` | tests/mocks/__init__.py:201 | the one-byte readiness poll has no integer code, so `unpack` rejects it |
| `Mock.HandshakeNotUnderstood` | tests/mocks/__init__.py:82-83 | writing the poll to the simulated unit raises, and its ready reply is not the one-byte ready reply the connection waits for |
| `Mock.MockAcu.constructor` | tests/mocks/__init__.py:50-62 | the unit starts in the default state with an empty reply buffer |
| `Mock.MockAcu.OnReady` | tests/mocks/__init__.py:82-83 | new state and buffer are those `React` gives for the ready handler |
| `Mock.MockAcu.OnFeeRead` | tests/mocks/__init__.py:86-92 | as `React` for FEE_READ; an exception changes nothing |
| `Mock.MockAcu.OnFeeWrite` | tests/mocks/__init__.py:95-106 | as `React` for FEE_WRITE; an exception changes nothing |
| `Mock.MockAcu.OnFilterRead` | tests/mocks/__init__.py:109-110 | as `React` for FILTER_READ |
| `Mock.MockAcu.OnFilterWrite` | tests/mocks/__init__.py:112-118 | as `React` for FILTER_WRITE; an exception changes nothing |
| `Mock.MockAcu.OnAttenRead` | tests/mocks/__init__.py:121-131 | as `React` for ATTEN_READ; an exception changes nothing |
| `Mock.MockAcu.OnAttenWrite` | tests/mocks/__init__.py:133-144 | as `React` for ATTEN_WRITE; an exception changes nothing |
| `Mock.MockAcu.OnEepromRead` | tests/mocks/__init__.py:147-148 | as `React` for EEPROM_READ |
| `Mock.MockAcu.OnEepromWrite` | tests/mocks/__init__.py:150-161 | as `React` for EEPROM_WRITE; an exception changes nothing |
| `Mock.MockAcu.Write` | tests/mocks/__init__.py:192-203 | new state and buffer are those `Receive` gives; an exception changes nothing |
| `Mock.MockAcu.Read` | tests/mocks/__init__.py:181-190 | returns the reply the last handler left |

## Left out

- Command and reply codes. Besides the values in ARXControl/const.py, the code uses FEE_READ, ROACH_WRITTEN, READY_RSP and others, and `ARG_SEPARATOR`. The repository defines none of them. The model uses distinct placeholder integers and `|`, which follows the commented-out builder at tests/mocks/__init__.py:72-79.
- `Connection._make_cmd` is called by `_send` but defined nowhere. `Codec.MakeCmd` follows that commented-out builder: `<code>;`, or `<code>,<a1>[|<a2>];` with at most two arguments.
- Bit-string constants. const.py defines kACK, SEPARATOR, END_COMMAND and others as `bitstring.Bits`. The model uses their integer values and characters. Two uses are read literally:
  - the identity test `code is not const.kACK` (see Findings);
  - `CHECK_READY.bytes` and `kREADY.bytes`, as one-character strings.
- Serial I/O. The port is a list of canned replies and a log of writes. Byte counts passed to `read`, baud rates, partial reads and opening the port are not modelled.
- Full-state frames. `ARX._checksum`, `read`, `write` and `_update`, and the CheckError/WriteError paths around them, are used by the tests but are not in arx.py. The frame is modelled from the test vectors only.
- Setter values. Setter values are `real`s, so `int(value)` is truncation. An accepted float such as `2.0` is sent as the integer `2`; Python would format it as `2.0` on the wire.
- `Properties.EepromPlan`: the upper bound `EEPROM_SIZE / FLASH_SIZE` is a parameter, because those constants are not defined in the repository.
- `Properties.Roach`: `state` is an integer. Other Python values compared with `0 <= state <= 1` are not modelled.
- Power setter on other iterables. The setter assigns `pwr[i] = int(pwr[i])`. A tuple or a string has `__iter__` but no item assignment, so Python raises TypeError on the first item, before anything is sent. The model's `Properties.PowerInput` covers numbers and lists only.
- Power flag bit order. Channel 0's flag is taken as the most significant bit of the power nibble (`Frame.PowerNibble`). The test vectors use flag patterns that read the same either way, so this is a modelling choice they do not fix.
- `Codec.ParseInt`: accepts what Python's `int()` accepts for ASCII text, namely surrounding whitespace and an optionally signed run of decimal digits. It does not accept underscores between digits (`1_0`), non-ASCII decimal digits, or non-ASCII whitespace, all of which `int()` also accepts.
- Power setter mutation. The power setter writes `int(pwr[i])` back into the caller's list. The model works on a copy, so that aliasing is not captured.
- Python 3 comparison semantics. An argument that `int()` left as text and that is then compared with an int raises TypeError, which is a handler `Fault` that changes nothing. Under Python 2 such a comparison would succeed.
- `Mock.MockAcu.constructor`: `DEFAULT_STATE` is a class-level dictionary that `__init__` shares rather than copies. Writes through one `MockACU` instance therefore change the default for later instances. The model gives each instance its own copy.
- Handshake with the simulated unit. The simulated unit cannot take part in the readiness handshake (`Mock.HandshakeNotUnderstood`). No lemma runs the client against the simulated unit end to end.
- `Client.Arx.Exchange`, `Client.Arx.Send` and the other client methods are proved for the object's own acknowledgement test (`classify`). The constructor sets it to the test as intended (`Sender.Classify`). This keeps the proofs independent of the unfolding of `unpack`.

## Findings

| source | as written | input that shows it | evidently intended | confidence | as-written member | corrected member |
|---|---|---|---|---|---|---|
| ARXControl/arx.py:94 | `code is not const.kACK` compares the int returned by `unpack` with a `Bits` object by identity, so it is always true and every reply counts as a refusal; `_send` and every setter and getter built on it always raise | the unit's acknowledgement `1;` (kACK, no payload), three times | return the payload when the reply code equals kACK (1) | high, not executed | `Sender.AckIgnoredAsWritten` (also `Sender.AsWrittenEveryCallRaises`, `Properties.AsWrittenSettersRaise`) | `Sender.ClassifyBuildResp` (with `Sender.SendLoopEnds`) |
