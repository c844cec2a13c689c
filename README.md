# instruments — a Dafny model of the instrument broker and device drivers

This project models the logic at the heart of the KFNT-Superfluid
`instruments` laboratory package.

**The broker.** It has two halves:

- **The server** (`InstrumentServer.py`) shares VISA instruments between
  client processes. A registry counts how many clients hold each device
  address open; a device is closed when its last client closes it.
  A handler per client connection parses requests of the form
  `VERB ADDR [PAYLOAD]` and answers each with `VERB OK`, `READ <text>` or
  `ERROR <class> <message>`. A listener names the handlers and joins them
  once they have finished.
- **The client stub** (`InstrumentClient.py`) builds those requests, finds
  the server's port in a port file, and turns ERROR replies into exceptions.

**The LiteVNA driver** (`LiteVNA.py`) speaks the LiteVNA's binary register
protocol over USB serial:

- command frames made of an opcode, a register and a little-endian payload;
- a FIFO read of 32 bytes per sweep point;
- decoding of each point's signed 32-bit fields and its 16-bit frequency index;
- the S-parameter ratios and the frequency grid of a sweep.

**The SR830 and SR844 lock-in drivers** (`SR830.py`, `SR844.py`) cover:

- front-panel code tables and their dictionaries;
- the value of a code such as `"10m"`;
- the choice of the best sensitivity for a signal;
- the overload bits of the status byte;
- the commands that set and read the time constant, sensitivity, slope,
  display, harmonic, input impedance and reserves, with their range guards.

**How the model is built:**

- Each pure computation of the source is a function, with lemmas about it.
- Each object whose fields the source updates is a class whose methods are
  proved against those functions.
  - `InstrumentServer.VisaInstruments` is proved against the functions of
    `Registry`.
  - `ClientHandler` and `InstrumentClientListener` are proved against the
    functions of `Protocol` and `InstrumentServer.Reap`.
  - `LiteVnaDriver` tracks the bytes sent and received.
  - The lock-in drivers talk to a `Device.VisaDevice`, which records every
    command written and answers queries from scripted replies.
- Errors the source raises are `Err`/`Fail` values that carry the Python
  exception class and message.
- Numbers are exact: integers are unbounded and front-panel values are
  exact reals.

Modules, one per file:

- `base.dfy`: Option, Result, exception classes.
- `text.dfy`: Python's `split`, `join`, `upper`, `str`, `int`, `bytes.hex` and `bytes.fromhex`.
- `registry.dfy`: the registry as functions of its state.
- `protocol.dfy`: `parse_msg`, the dispatch and the handler loop.
- `instrument_server.dfy`: the server's classes.
- `instrument_client.dfy`: the stub, and lemmas that connect it with the server.
- `lite_vna.dfy`: the LiteVNA protocol and driver.
- `device.dfy`: the scripted VISA device.
- `lockin.dfy`: what the two lock-in drivers share.
- `sr830.dfy`: the SR830 tables and driver.
- `sr844.dfy`: the SR844 tables and driver.

**Where the code and its documentation disagree, the model follows the code:**

- `configure_instrument` on an address nobody has opened raises KeyError
  only when the configuration has at least one item. An empty
  configuration never looks the address up, so it succeeds.
- In `wide_reserve` and `close_reserve` (SR844), the bare `raise` after
  the `try` runs on every set path. A valid name is written and then
  "No active exception to reraise" is raised; an invalid name writes
  nothing and raises the same error.
- In `input_impedance` (SR844), reading an unknown code also ends in
  that bare `raise`.
- `buffer_shot` checks `N > 16383` only after it has written `SRAT`.

## Model

| member | source | states |
|---|---|---|
| Text.Split | InstrumentServer.py:190 | `str.split(' ')` gives at least one piece, no piece holds the separator, and joining the pieces gives back the text |
| Text.SplitJoin | InstrumentClient.py:60-62 | splitting a join of separator-free pieces gives back the pieces |
| Text.Upper | InstrumentServer.py:191 | `upper()` keeps the length and upper-cases each ASCII letter |
| Text.UpperIdempotent | SR844.py:97 | upper-casing twice is upper-casing once |
| Text.DecimalText | SR830.py:292 | `str(n)` is a non-empty digit string with no leading zero |
| Text.DecimalRoundTrip | SR830.py:292-295 | reading the digits of `str(n)` gives back `n` |
| Text.DecimalInjective | InstrumentServer.py:57 | different numbers have different decimal texts |
| Text.ParseInt | SR830.py:295 | `int(s)` on ASCII text: succeeds exactly on optionally signed digits surrounded by white space, with the value they denote |
| Text.ParseIntText | SR830.py:292-295 | `int(str(n)) == n` for every integer |
| Text.ParseIntLine | InstrumentClient.py:22 | `int` of a line holding `str(n)` and a line break is `n` |
| Text.ToHex | InstrumentClient.py:95 | `bytes.hex()` writes two hex digits per byte |
| Text.HexRoundTrip | InstrumentServer.py:212 | `bytes.fromhex(b.hex()) == b` |
| Text.HexHasNoSpace | InstrumentClient.py:95 | the hex text holds no space, so it is a single token of a request |
| Registry.IncThenRefClose | InstrumentServer.py:99-105 | `inc` followed by `refclose` restores the wrapper and closes nothing |
| Registry.PresentIffCounted | InstrumentServer.py:125-128 | in a valid registry an address is present exactly when its count is positive |
| Registry.OpenEffect | InstrumentServer.py:114-123 | opening a new address creates count 1 on a fresh session (or fails when no device answers); opening a present address only increments its count; no other entry changes |
| Registry.CloseEffect | InstrumentServer.py:125-128 | close decrements the count; the device is closed and the entry popped exactly at zero; an unknown address raises KeyError and changes nothing |
| Registry.ApplyPreservesValid | InstrumentServer.py:114-168 | every registry operation keeps counts positive and sessions distinct, and never removes a logged device call |
| Registry.NotOpenIsKeyError | InstrumentServer.py:125-163 | CLOSE, CONF (non-empty), WRITE, READ and QUERY on an address not in the dict raise KeyError naming it and change nothing |
| Registry.CountStep | InstrumentServer.py:114-128 | one request raises the count of its address by one for a successful OPEN, lowers it by one for a successful CLOSE, and otherwise changes no count |
| Registry.CountIsNetOpens | InstrumentServer.py:114-128 | after any run of requests an address's count is its old count plus the successful OPENs minus the successful CLOSEs |
| Registry.SharedDeviceScenario | InstrumentServer.py:114-163 | two clients share one device: count 2, the query is answered, the first close keeps the device, the second closes it, and a third close is a KeyError |
| Protocol.ParseFailsIffNoSpace | InstrumentServer.py:188-197 | `parse_msg` raises IndexError exactly when the message holds no space |
| Protocol.ParseMsgThree | InstrumentServer.py:188-197 | `parse_msg("V A R")` is `(V.upper(), A, R)` with `R` reproduced exactly, spaces included |
| Protocol.ParseMsgTwo | InstrumentServer.py:193-196 | `parse_msg("V A")` has an empty command |
| Protocol.DispatchReply | InstrumentServer.py:206-232 | each known verb asks for its own registry call; an unknown verb or an undecodable CONF payload gets the ERROR reply of that fault and changes nothing; otherwise the registry takes the call's new state and the reply is `VERB OK` or `READ <text>` on success and the ERROR reply of that exception on failure, so a reply starts with `ERROR ` exactly when the call failed |
| Protocol.NotOpenReply | InstrumentServer.py:224-232 | a request on an address nobody opened is answered with the KeyError reply and leaves registry and devices untouched |
| Protocol.SessionHalts | InstrumentServer.py:203-237 | the loop ends on the hang-up, or on a message that does not parse, without a reply to it |
| Protocol.SessionAllParse | InstrumentServer.py:199-234 | when every message parses there is exactly one reply per message and the loop ends on EOF |
| Protocol.SessionStopsAt | InstrumentServer.py:204-237 | when message k is the first that does not parse, exactly k replies were sent and the IndexError escapes |
| Protocol.UnknownVerbKeepsServing | InstrumentServer.py:227-232 | an unknown verb gets an ERROR reply and the connection goes on serving the rest as if it had not come |
| InstrumentServer.RefCountedInstrument.constructor | InstrumentServer.py:96-98 | a new wrapper holds its device with count 1 |
| InstrumentServer.RefCountedInstrument.Inc | InstrumentServer.py:99-100 | `inc` adds one to the count in place |
| InstrumentServer.RefCountedInstrument.RefClose | InstrumentServer.py:101-105 | `refclose` subtracts one, closes the device exactly at zero, and returns the new count |
| InstrumentServer.VisaInstruments.constructor | InstrumentServer.py:109-112 | an empty dict over a resource manager that has made no call, which is a valid registry |
| InstrumentServer.VisaInstruments.OpenInstrument | InstrumentServer.py:114-123 | the new fields and the result are those of `Registry.OpenInstrument`, and validity is kept |
| InstrumentServer.VisaInstruments.ConfigureInstrument | InstrumentServer.py:131-149 | the loop makes one `setattr` per item in order, as `Registry.Configure` says, and raises KeyError at the first item when the address is unknown |
| InstrumentServer.VisaInstruments.CloseInstrument | InstrumentServer.py:125-128 | the new fields and the result are those of `Registry.CloseInstrument` |
| InstrumentServer.VisaInstruments.Write | InstrumentServer.py:151-153 | forwards the message to the address's device, or raises KeyError |
| InstrumentServer.VisaInstruments.Read | InstrumentServer.py:155-158 | returns the device's next answer, or raises KeyError or the device's error |
| InstrumentServer.VisaInstruments.Query | InstrumentServer.py:160-163 | writes the message and returns the device's answer as one exchange |
| InstrumentServer.VisaInstruments.Close | InstrumentServer.py:165-168 | every device in the dict is closed once, then the resource manager; the dict stays |
| InstrumentServer.NameQueue.Put | InstrumentServer.py:241 | appends a finished handler's name |
| InstrumentServer.NameQueue.Get | InstrumentServer.py:67 | removes and returns the oldest name |
| InstrumentServer.NameQueue.Empty | InstrumentServer.py:66 | true exactly when no name is queued |
| InstrumentServer.ClientHandler.constructor | InstrumentServer.py:180-186 | a handler with its name, the shared registry and queue, an open connection and no reply sent |
| InstrumentServer.ClientHandler.Serve | InstrumentServer.py:206-232 | one request changes the registry and replies as `Protocol.Dispatch` says |
| InstrumentServer.ClientHandler.Run | InstrumentServer.py:199-241 | the registry and the replies are those of `Protocol.Session`; on every exit the connection is closed and the name queued exactly once |
| InstrumentServer.HandlerNameInjective | InstrumentServer.py:57 | `"handler <id>"` names are equal exactly when the ids are |
| InstrumentServer.ReapFinished | InstrumentServer.py:65-69 | draining a queue of distinct registered names joins exactly those handlers in order, removes exactly them, and never raises |
| InstrumentServer.InstrumentClientListener.constructor | InstrumentServer.py:23-35 | no handlers, id 0, an empty finished queue, end event clear |
| InstrumentServer.InstrumentClientListener.Start | InstrumentServer.py:36-48 | port 0 becomes the system's port, and the port file holds the port and the host, one per line |
| InstrumentServer.InstrumentClientListener.Accept | InstrumentServer.py:50-63 | the new handler is named `handler <id>`, a name no handler has; the dict grows by exactly it and the id by one |
| InstrumentServer.InstrumentClientListener.RunHandler | InstrumentServer.py:199-241 | a handler thread's conversation, after which its name is queued and it is still registered |
| InstrumentServer.InstrumentClientListener.JoinFinishedHandlers | InstrumentServer.py:65-69 | the dict, joined names, queue and outcome are those of `Reap` |
| InstrumentServer.InstrumentClientListener.JoinFinished | InstrumentServer.py:65-69 | on a valid listener every finished handler is joined once in finishing order and removed, the queue ends empty, and only running handlers remain |
| InstrumentServer.InstrumentClientListener.CloseServer | InstrumentServer.py:71-78 | the end event is set and every registered handler is joined once |
| InstrumentClient.HandleError | InstrumentClient.py:38-44 | `handle_error` always raises RuntimeError |
| InstrumentClient.FirstToken | InstrumentClient.py:40-41 | the first token is `w` exactly when the text is `w` or starts with `w ` |
| InstrumentClient.HandleErrorByPrefix | InstrumentClient.py:38-44 | an `ERROR rest` reply raises with message `rest`; any other text raises `Unknown Error: <msg>` |
| InstrumentClient.HandleErrorReply | InstrumentClient.py:38-44 | the server's ERROR reply raises the server's class and message as text on the client |
| InstrumentClient.ReadReplyRoundTrip | InstrumentClient.py:60-62 | `READ <text>` unwraps to exactly `text`, including the empty text |
| InstrumentClient.ReadReplyError | InstrumentClient.py:73-77 | an ERROR reply to read or query raises the relayed fault |
| InstrumentClient.ExpectReply | InstrumentClient.py:49-50 | only the exact expected reply succeeds; anything else raises RuntimeError |
| InstrumentClient.FirstLine | InstrumentClient.py:22 | `readline()` is the prefix of the text up to and including the first line break, or the whole text when it has none |
| InstrumentClient.PortFileRoundTrip | InstrumentClient.py:20-22 | a client reading the listener's port file connects to the listener's port |
| InstrumentClient.InstrumentClient.constructor | InstrumentClient.py:17-25 | connects and sends `OPEN a`, recording whether the server answered `OPEN OK` |
| InstrumentClient.InstrumentClient.Disconnect | InstrumentClient.py:27-29 | closes the connection |
| InstrumentClient.InstrumentClient.SendAndRecv | InstrumentClient.py:31-36 | one message out and one reply in; a closed connection raises without sending |
| InstrumentClient.InstrumentClient.Open | InstrumentClient.py:46-50 | sends `OPEN a`; succeeds only on `OPEN OK` |
| InstrumentClient.InstrumentClient.Close | InstrumentClient.py:52-55 | sends `CLOSE a`; succeeds only on `CLOSE OK` |
| InstrumentClient.InstrumentClient.Write | InstrumentClient.py:66-69 | sends `WRITE a m`; succeeds only on `WRITE OK` |
| InstrumentClient.InstrumentClient.Configure | InstrumentClient.py:79-98 | sends `CONF a <hex>`; succeeds only on `CONF OK` |
| InstrumentClient.InstrumentClient.Query | InstrumentClient.py:71-77 | sends `QUERY a m`; returns the text after `READ` or raises |
| InstrumentClient.InstrumentClient.Read | InstrumentClient.py:56-63 | sends `READ a`; disconnects once a reply has arrived, whatever it says, but stays connected when the exchange raises; returns the text after `READ` or raises |
| InstrumentClient.ShortRequestsParse | InstrumentClient.py:48-58 | the server parses `OPEN a`, `CLOSE a` and `READ a` into their verb, `a` and an empty command |
| InstrumentClient.MessageRequestsParse | InstrumentClient.py:67-72 | the server parses `WRITE a m` and `QUERY a m` into their verb, `a` and `m` unchanged |
| InstrumentClient.ConfRequestDecodes | InstrumentClient.py:95 | a CONF request parses into the hex text, and the server's `bytes.fromhex` gives back exactly the client's bytes |
| InstrumentClient.QueryEndToEnd | InstrumentClient.py:71-77 | on an open address the client gets exactly the device's answer; device errors and unknown addresses reach it as the relayed fault |
| InstrumentClient.ExpectEndToEnd | InstrumentClient.py:46-69 | open, close, write and configure succeed on the client exactly when the registry call succeeds, and otherwise raise the relayed fault |
| InstrumentClient.ReadThenWrite | InstrumentClient.py:56-68 | after a `read` that got its reply a later write raises without sending; after a `read` that met end of file the write is still sent and meets it too |
| LiteVna.UnpackPack | LiteVNA.py:120-121 | decoding the little-endian bytes of a value that fits gives it back |
| LiteVna.PackUnpack | LiteVNA.py:188-194 | encoding a decoded byte string gives it back |
| LiteVna.PackU16 | LiteVNA.py:120 | `struct.pack('<H')` succeeds exactly on 0..65535, with 2 bytes that decode to the value |
| LiteVna.PackU64 | LiteVNA.py:127 | `struct.pack('<Q')` succeeds exactly on 0..2^64-1, with 8 bytes that decode to the value |
| LiteVna.Int32LE | LiteVNA.py:188 | `struct.unpack('<i')` lies in the signed 32-bit range |
| LiteVna.Int32RoundTrip | LiteVNA.py:188-193 | decoding the two's-complement bytes of a signed 32-bit value gives it back |
| LiteVna.WriteU8Frame | LiteVNA.py:111-115 | `[0x20, reg, value mod 256]` |
| LiteVna.WriteU16Frame | LiteVNA.py:117-122 | `[0x21, reg]` and two little-endian bytes that decode to the value; rejected outside 0..65535 |
| LiteVna.WriteU64Frame | LiteVNA.py:124-130 | `[0x23, reg]` and eight little-endian bytes that decode to the value; rejected outside 0..2^64-1 |
| LiteVna.ReadFifoFrame | LiteVNA.py:158-159 | `[0x18, 0x30]` and the point count as two little-endian bytes; rejected outside 0..65535 |
| LiteVna.ChannelCode | LiteVNA.py:232-236 | 1 exactly for S11 only, 2 exactly for S21 only, 0 exactly when both flags are equal |
| LiteVna.Ratio | LiteVNA.py:200-205 | the ratio is infinite exactly when the reference is zero |
| LiteVna.RatioTimesReference | LiteVNA.py:204-205 | the S-parameter times the reference gives back the measured value exactly |
| LiteVna.DecodePoint | LiteVNA.py:186-194 | the frequency index is an unsigned 16-bit value |
| LiteVna.DecodeEncode | LiteVNA.py:186-194 | decoding a record laid out as six int32 fields and a uint16 index gives back those fields, whatever the padding |
| LiteVna.ParseSweepData | LiteVNA.py:170-213 | floor(len/32) records; entry k of each list decodes record k (index, S11 and S21 as reference ratios); a trailing partial record is ignored |
| LiteVna.RoundHalfEven | LiteVNA.py:254 | `round` gives the nearest integer, and the even one on a tie |
| LiteVna.StepHz | LiteVNA.py:251-254 | step 0 for at most one point, otherwise the rounded span per interval |
| LiteVna.StepExact | LiteVNA.py:251-254 | when the span divides evenly, the last grid point is exactly the stop frequency |
| LiteVna.Frequencies | LiteVNA.py:304 | point k is at `start + fidx[k]*step`; an index outside the grid raises IndexError |
| LiteVna.LiteVnaDriver.constructor | LiteVNA.py:61-73 | not connected, 101 points, start and step 0 |
| LiteVna.LiteVnaDriver.Open | LiteVNA.py:75-86 | connected on success; on a serial error it stays closed and re-raises |
| LiteVna.LiteVnaDriver.Close | LiteVNA.py:88-93 | disconnected |
| LiteVna.LiteVnaDriver.CheckConnection | LiteVNA.py:104-107 | raises ConnectionError exactly when not connected |
| LiteVna.LiteVnaDriver.ReadBytes | LiteVNA.py:136 | a timed-out read returns fewer bytes than asked, taken in order from the stream |
| LiteVna.LiteVnaDriver.WriteU8 | LiteVNA.py:111-115 | sends exactly the u8 frame, or raises ConnectionError sending nothing |
| LiteVna.LiteVnaDriver.WriteU16 | LiteVNA.py:117-122 | sends exactly the u16 frame; an out-of-range value raises struct.error with nothing sent |
| LiteVna.LiteVnaDriver.WriteU64 | LiteVNA.py:124-130 | sends exactly the u64 frame; an out-of-range value raises struct.error with nothing sent |
| LiteVna.LiteVnaDriver.ReadU8 | LiteVNA.py:132-140 | sends `[0x10, reg]`; returns the next byte, or TimeoutError when none comes |
| LiteVna.LiteVnaDriver.ClearFifo | LiteVNA.py:142-147 | sends `[0x20, 0x30, 0x01]` |
| LiteVna.LiteVnaDriver.ReadFifo | LiteVNA.py:149-168 | sends the FIFO frame; returns exactly 32n bytes, or TimeoutError naming expected and received counts |
| LiteVna.LiteVnaDriver.GetVersion | LiteVNA.py:217-221 | reads the major and minor registers and returns `major.minor`; on each timeout path the frames sent and the bytes consumed are stated, and the second read is not attempted after the first times out |
| LiteVna.LiteVnaDriver.SetChannels | LiteVNA.py:223-239 | writes the channel code to register 0x44 |
| LiteVna.LiteVnaDriver.SetFrequencyRange | LiteVNA.py:241-266 | stores start, step and points first, then writes start, step and points, in that order, stopping at the first error |
| LiteVna.LiteVnaDriver.ReadSweep | LiteVNA.py:268-306 | clears the FIFO, reads 32n bytes (retrying once after a timeout), and succeeds exactly when every index is in the grid, with each point's frequency and S-parameters decoded from its record |
| Lockin.IndexOf | SR830.py:378 | `list.index`: the first position of the key, absent exactly when the key is not in the list |
| Lockin.CodeOf | SR830.py:21 | `{val: code for code, val in enumerate(t)}[key]` is a position holding the key, or KeyError exactly when the key is absent |
| Lockin.EntryFor | SR844.py:108 | the code's entry, or KeyError exactly when the code is out of range |
| Lockin.ListIndex | SR830.py:295 | Python list indexing, with negative indices counting from the end and IndexError outside |
| Lockin.EnumerateInverse | SR830.py:27-28 | on a table with no repeats the two dictionaries are inverse to each other |
| Lockin.AscendingDistinct | SR830.py:14-19 | a table whose values strictly grow holds no entry twice, so its dictionary inverts its list |
| Lockin.TableCommand | SR830.py:291 | `HEAD <code>` exactly for a key of the table, with the code a position holding the key; otherwise the KeyError of the key |
| Lockin.TableRoundTrip | SR830.py:275-295 | the code a setter writes, read back by the getter, gives back the string set, for every table |
| Lockin.CodeToValue | SR830.py:44-48 | code values are non-negative |
| Lockin.PlainCodeValue | SR830.py:47-48 | a code with no suffix is worth its number |
| Lockin.ScaledCodeValue | SR830.py:45-46 | a code with a suffix is worth its number times the suffix's multiplier |
| Lockin.FirstAbove | SR830.py:51-54 | the first position whose value exceeds 1.5 v, with every earlier one at or below it |
| Lockin.FindBestSens | SR830.py:50-55 | the first code exceeding 1.5 v, else `"1"` when none does |
| Lockin.BestIsSmallest | SR830.py:50-55 | on an ascending table the chosen code is the smallest that exceeds 1.5 v |
| Lockin.BestInTable | SR830.py:50-55 | on an ascending table holding `"1"`, the choice is a table entry exceeding 1.5 v (or `"1"`) and no larger than any entry that does |
| Lockin.OverloadedIffLowBits | SR830.py:353-359 | bit 0, 1 or 2 of the status is set exactly when `status mod 8 != 0` |
| Sr830.TablesDistinct | SR830.py:14-42 | no table holds an entry twice (the time constants and sensitivities because their values grow), so every dictionary inverts its list |
| Sr830.SensitivitiesAscending | SR830.py:22-25 | the 27 sensitivities are codes with strictly growing values, from 2n to 1 |
| Sr830.TimeConstantsAscending | SR830.py:14-17 | the 20 time constants are codes with strictly growing values, from 10u to 30k |
| Sr830.BestSens | SR830.py:50-55 | a table entry exceeding 1.5 v (or `"1"`), no larger than any other entry that does |
| Sr830.DisplayCommand | SR830.py:376-386 | `DDEF ch, i, 0` exactly for channel 1 with an x display or channel 2 with a y display; otherwise KeyError about `display` |
| Sr830.DisplayRoundTrip | SR830.py:361-405 | setting display i on channel 1 (x displays) or channel 2 (y displays) writes `DDEF ch, i, 0`, and a reply on that channel starting with i reads back the display |
| Sr830.Sr830Driver.Phase | SR830.py:67-75 | writes the phase only for -360 <= phi <= 729.99, otherwise raises before writing; then queries `PHAS?` |
| Sr830.Sr830Driver.SetAux | SR830.py:106-111 | writes `AUXV n, U` only for abs(U) <= 10.5, otherwise raises with nothing written |
| Sr830.Sr830Driver.SetTimeconstant | SR830.py:275-292 | writes the time constant's code, or raises KeyError with nothing written |
| Sr830.Sr830Driver.GetTimeconstant | SR830.py:294-295 | queries `OFLT?` and returns the table entry of the reply |
| Sr830.Sr830Driver.SetSensitivity | SR830.py:297-312 | writes the sensitivity's code, or raises KeyError with nothing written |
| Sr830.Sr830Driver.SetSlope | SR830.py:320-322 | writes the slope's code, or raises KeyError with nothing written |
| Sr830.Sr830Driver.GetSlope | SR830.py:324-325 | queries `OFSL?` and returns the table entry of the reply |
| Sr830.Sr830Driver.AutoSens | SR830.py:347-351 | returns the best code's value (above 1.5 maxval, or 1) and writes `SENS` only when do_set |
| Sr830.Sr830Driver.Overloadp | SR830.py:353-359 | queries `LIAS?`, clears the device, and reports whether a low status bit is set |
| Sr830.Sr830Driver.SetDisplay | SR830.py:361-386 | writes the display command, or raises KeyError with nothing written |
| Sr830.Sr830Driver.GetDisplay | SR830.py:388-405 | queries both channels and returns the displays their first digits name |
| Sr830.Sr830Driver.BufferShotStart | SR830.py:461-474 | an unknown sample rate raises KeyError before any write; `SRAT` is written before the point limit is checked; then `PAUS`, `REST`, `STRT` |
| Sr844.TablesDistinct | SR844.py:12-26 | no table holds an entry twice (the time constants and sensitivities because their values grow) |
| Sr844.SlopeCodes | SR844.py:25-26 | `nofilter` is slope code 0 and `6`, `12`, `18`, `24` are 1 to 4 |
| Sr844.SensitivitiesAscending | SR844.py:19-20 | the 15 sensitivities are codes with strictly growing values, from 100n to 1 |
| Sr844.TimeConstantsAscending | SR844.py:12-15 | the 18 time constants are codes with strictly growing values, from 100u to 30k |
| Sr844.BestSens | SR844.py:35-40 | a table entry exceeding 1.5 v (or `"1"`), no larger than any other entry that does |
| Sr844.HarmonicCommand | SR844.py:155-162 | accepted exactly for 1 and 2, otherwise RuntimeError |
| Sr844.HarmonicRoundTrip | SR844.py:155-162 | the code written for harmonic h, read back and incremented, is h |
| Sr844.ImpedanceCommand | SR844.py:96-101 | accepted exactly for `'50'` or a case variant of `'HIZ'`, otherwise RuntimeError |
| Sr844.ImpedanceOf | SR844.py:87-94 | code 0 reads `'50'`, code 1 reads `'HIZ'`, any other code ends in the bare `raise` |
| Sr844.ImpedanceRoundTrip | SR844.py:86-101 | the code written for an impedance reads back as its upper-cased name |
| Sr844.ReserveCommand | SR844.py:107-113 | a reserve command exactly for HIGH, NORMAL or LOW in any case, otherwise KeyError |
| Sr844.ReserveCodes | SR844.py:107-113 | HIGH, NORMAL and LOW are written as 0, 1 and 2, and each reads back as its name |
| Sr844.Sr844Driver.Harmonic | SR844.py:148-162 | reading returns the device code plus one; setting writes `HARM h-1` for h in {1, 2}, otherwise raises with nothing written |
| Sr844.Sr844Driver.InputImpedance | SR844.py:86-101 | reading maps the device code; setting writes `INPZ 0` or `INPZ 1`, otherwise raises with nothing written |
| Sr844.Sr844Driver.Reserve | SR844.py:104-130 | reading maps the device code; setting writes a valid code, and every set path then raises from the bare `raise` |
| Sr844.Sr844Driver.WideReserve | SR844.py:104-116 | the reserve logic on `WRSV` |
| Sr844.Sr844Driver.CloseReserve | SR844.py:118-130 | the reserve logic on `CRSV` |
| Sr844.Sr844Driver.SetTimeconstant | SR844.py:165-166 | writes the time constant's code, or raises KeyError with nothing written |
| Sr844.Sr844Driver.GetTimeconstant | SR844.py:168-169 | queries `OFLT?` and returns the table entry of the reply |
| Sr844.Sr844Driver.SetSensitivity | SR844.py:171-172 | writes the sensitivity's code, or raises KeyError with nothing written |
| Sr844.Sr844Driver.AutoSens | SR844.py:209-213 | returns the best code's value and writes `SENS` only when do_set |
| Sr844.Sr844Driver.Overloadp | SR844.py:215-221 | queries `LIAS?`, clears the device, and reports whether a low status bit is set |
| Device.NextReply | SR830.py:295 | a query is answered exactly while scripted replies remain, otherwise VISA times out |
| Device.IntReply | SR830.py:295 | `int(dev.query(...))` reads the next reply as a decimal integer |
| Device.VisaDevice.Write | SR830.py:292 | appends the command to the log |
| Device.VisaDevice.Query | SR830.py:295 | logs the query and consumes one reply |
| Device.VisaDevice.Clear | SR830.py:355 | logs the clear |

## Left out

- Threads and locking are not modelled. This covers `global_visa_lock` and `Thread.start`/`join`. Calls are taken one at a time, and a handler's whole conversation is one call.
- InstrumentServer.InstrumentClientListener.CloseServer: `end_event` is set but nothing in a handler's `run` reads it, so in the source `close_server`'s `join` waits until each client hangs up, possibly forever. The model treats every registered handler's conversation as already over when `CloseServer` joins it.
- Sockets are not modelled. `Listener`/`Client`, `conn.send`/`recv` and the port file's creation and removal are left out. Received messages are inputs and replies are outputs.
- `pickle.dumps`/`loads` is a foreign serializer. It is a parameter (`unpickle`) of the handler, and the CONF payload is opaque bytes. Only the hex layer is modelled.
- pyvisa `ResourceManager`, `open_resource` and `setattr` on a resource are foreign calls. They are logged calls on an abstract backend with scripted answers.
- The serial port of the LiteVNA is abstract: a stream of incoming bytes. A serial error on `open` is a parameter.
- InstrumentServer.VisaInstruments: the dict holds `RefCounted` values rather than shared `RefCountedInstrument` objects, so aliasing between the dict and the wrappers is not modelled.
- InstrumentServer.VisaInstruments.Close and InstrumentServer.InstrumentClientListener.CloseServer: the iteration order of the dict is a ghost out-parameter. The contract states that each entry is visited once, not the order in which it is visited.
- LiteVna.LiteVnaDriver.ReadSweep: sleeps are not modelled. The retry after a timeout reads from the same incoming stream, which the first read has already drained.
- LiteVna.Ratio: S-parameters are exact rational quotients. IEEE rounding and the `inf` components of the float result are not modelled.
- LiteVna.RoundHalfEven: rounds the exact quotient. The rounding of the float division before `round` is not modelled.
- LiteVna.Frequencies: frequencies are exact integers. The element type numpy chooses for the array (int64, uint64 or object, from the values) is not modelled, and neither is the float64 type of the empty array when there are no points.
- `print` and `log` calls are left out, as are `__enter__`/`__exit__` and the `loop`/`__main__` driver code.
- Sr830.Sr830Driver.Phase: float formatting of `'PHAS {:.3f}'` is not modelled. The model logs the value itself. The reply is returned as text, because `float()` parsing is not modelled. The error message leaves out the rendered value.
- Sr830.Sr830Driver.SetAux: the float rendering of `U` in the command is not modelled. The value is logged as a number.
- Lockin.CodeToValue: front-panel values are exact reals. Float rounding at table boundaries in `find_best_sens` is not modelled.
- Sr830.Sr830Driver.BufferShotStart: covers the sample-rate and point-count guards and the four start writes. The sleep, `ILock`, the `SPTS?` polling loop and the binary transfer are timing and cross-process locking, and are left out.
- Sr844.Sr844Driver.Reserve: the bare `raise` is modelled as "No active exception to reraise". This assumes the caller is not itself handling an exception.
- Base.KeyErrorFor and Text.InvalidIntLiteral: the text is put between single quotes as it is. Python writes the `repr` of the text, which uses double quotes for a text that contains a single quote and escapes backslashes, line breaks, tabs and other non-printable characters. The SR830 `set_display` message, which contains single quotes, is the one case that uses double quotes.
- The remaining SR830/SR844 methods are not modelled. Their tables, guards and value conversions are of the same kind as those modelled for the time constant, sensitivity, harmonic and impedance. This covers:
  - `get_sensitivity`, which returns `code_to_value` of the table entry or the code;
  - SR844 `get_slope`, with its unused argument;
  - SR830 `reference`, `reference_trigger`, `reserve`, `coupling`, `sync`, `input_shield`, `line_filter` and `set_signal_input`/`get_signal_input`, each a small table, with a RuntimeError, KeyError or ValueError (from `list.index`) for a value it does not hold;
  - SR830 `harmonic`, which writes the harmonic unchecked and reads it back with `int`;
  - SR830 `auto_phase`/`auto_offset`/`auto_gain`, the offset and expand, aux input, output amplitude, frequency and `get_xy` methods, and the settings dumps, which send commands and convert replies with `float`;
  - SR844 `phase`, `reference` and `get_xy`.
- `SR830.set_offset_expand` with `offset='auto'` calls a method that does not exist, and is not modelled.
- `InstrumentClient.lock`, `unlock` and `clear` have empty bodies and are not modelled.
- `upper()` and white space are ASCII only. Unicode case mapping is not modelled.
- Text.ParseInt: does not accept what `int()` accepts beyond optionally signed ASCII digits between spaces, tabs and line breaks. Underscores between digits (`int("1_0") == 10`), the separators `\x1c` to `\x1f` and other Unicode white space, and non-ASCII digits are rejected, where Python would parse them.
- Text.FromHex: the messages are those of Python 3.12 and later, where an argument ending after the first digit of a byte reports an odd number of digits. Earlier versions report the position instead.
- Registry.Write, Registry.Configure and Registry.CloseInstrument: the device's `write`, `setattr` and `close` never fail in the model; only reads and queries have scripted errors. A failing `write` or `setattr` would give an ERROR reply instead of `WRITE OK` or `CONF OK`. A failing `close` inside `refclose` would skip the `pop`, which leaves an entry with count 0 that `Registry.Valid` rules out. InstrumentServer.VisaInstruments.Close inherits the same assumption.
- DAQ_Lockin.py, DAQcard.py and the other device wrappers of the repository are not part of this model.
