# Arduino HID serial protocol, modelled in Dafny

A Python host drives an Arduino Leonardo that acts as a USB mouse and
keyboard. They talk over a serial line with a small binary protocol. The
host is the `ArduinoHID` class in module/arduinoHID.py. The firmware is
the sketch ino_/ardunio_code.c.

Every command goes out as one frame:

    0xAA | len | cmd | params... | crc

- `len` counts the opcode and the parameters.
- `crc` is CRC-8/MAXIM over the opcode and the parameters only. Both sides
  compute it with the same 256-entry lookup table.

The device answers each frame with one ack byte:

- 0xF0 SUCCESS;
- 0xF1 CRC_ERROR;
- 0xF2 INVALID_CMD;
- 0xF3 PARAM_ERROR.

The host writes a frame, reads one ack, and tries again after a timeout or
a CRC_ERROR while attempts remain. Any other reply settles the call. The
device is a byte-at-a-time state machine with three states: wait for the
sync byte, read the length, read the data and checksum. A complete packet
with a good checksum goes to `processPacket`. That function checks the
parameter count for the opcode, performs the mouse or keyboard calls and
acks.

The project has these modules:

- `Bytes`: the byte type and the firmware's wrapping `uint32_t` counters.
- `Crc8Maxim`: the bit-by-bit CRC-8/MAXIM of Maxim Application Note 27
  (reflected polynomial 0x8C). It is the reference the tables are checked
  against.
- `HostProtocol`: the host's constants, table, checksum, frame layout and
  command encodings. It also has the requests each driver method makes:
  clamping, signed bytes, the big-endian duration, and print chunking.
- `HostTableCheck`: the host table is CRC-8/MAXIM, entry by entry.
  CRC-8/MAXIM has the fixed point 0xF7, so the swapped pair 00 F7 /
  F7 00 has the same checksum (`SwappedPairCollides`); a byte swap is
  not always detected.
- `HostSerial`: the serial port as a class over a scripted sequence of
  read events, plus a log of the buffers written.
- `HostTransport`: the specification of `_send_packet` (`Exchange`), of
  one request (`Perform`), and of a sequence of requests that stops at
  the first failure (`RunAll`). Lemmas cover the retry loop.
- `HostDriver`: the `ArduinoHID` class. Each method is proved to change
  the port exactly as its specification says.
- `FirmwareProtocol`: the sketch as functions. `Process` is
  `processPacket`, `Step` is one byte of `loop`, `Feed` is a stream of
  bytes.
- `Firmware`: the sketch as the imperative program it is. It has the
  `Logger` class, `crc8` over the buffer array, and the globals `rx_buffer`,
  `rx_state`, `rx_len` and `rx_idx`. Each method is proved against
  `FirmwareProtocol`.
- `EndToEnd`: the host against the device. The two tables agree. A host
  frame with at most 30 parameter bytes reaches `processPacket` intact.
  The device's decoding of each command undoes the host's encoding.

Modelling choices:

- A Python `ValueError` or `struct.error` for an argument that does not fit
  its byte becomes `Reject(ValueOutOfRange(v))`. It is raised before
  that request's frame is written.
- A read that times out is a `Timeout` event, and so is any read past the
  end of the script.
- A `SerialException` from a closed port becomes `SerialError`.
- The HID library calls are an ordered trace of `HidAction`s. `delay(ms)`
  is recorded in the trace as `Wait(ms)`.

## Model

| member | source | states |
|---|---|---|
| Bytes.Inc32 | ino_/ardunio_code.c:69 | `packet_counter++` (and likewise `error_counter++` at line 156 and `success_counter++` at line 194) on a `uint32_t` adds one, and wraps 0xFFFFFFFF to 0 |
| HostProtocol.ComputeCrc8 | module/arduinoHID.py:150-155 | the loop of `_crc8` returns the table fold of the data from 0 |
| HostProtocol.Crc8 | module/arduinoHID.py:150-155 | `_crc8` of empty data is the start value 0, and data ending in the checksum of the bytes before it checksums to 0 |
| HostProtocol.Frame | module/arduinoHID.py:157-162 | the frame is 4 bytes longer than the parameters: sync byte, length = opcode plus params, opcode and params, then the checksum of exactly the opcode and params (not the sync or length byte) |
| HostProtocol.Clamp | module/arduinoHID.py:200-202 | `max(lo, min(hi, v))` lies in [lo, hi], is v when v is in range, lo below, hi above |
| HostProtocol.SignedByte | module/arduinoHID.py:203 | `struct.pack('b', v)` is v mod 256, with the top bit set exactly for negative v |
| HostProtocol.TimedParams | module/arduinoHID.py:225-229 | `struct.pack('>BH', code, ms)` is three bytes: the code, then the clamped duration big-endian |
| HostProtocol.ByteRequest | module/arduinoHID.py:206-208 | `bytes([v])` is sent as the one parameter byte iff 0 <= v < 256; otherwise ValueError for v |
| HostProtocol.MouseMoveRequest | module/arduinoHID.py:198-204 | `mouse_move` always sends MOUSE_MOVE with three bytes, each of which reads back as its clamped delta in [-127, 127] |
| HostProtocol.TimedRequest | module/arduinoHID.py:225-229 | a timed press is sent iff the code fits a byte; the duration field lies in [1, 65535] and equals the requested duration when that is in range; otherwise ValueError for the code |
| HostProtocol.AsciiBytes | module/arduinoHID.py:267 | `encode('ascii', errors='ignore')` gives at most as many bytes as characters, all below 128; all-ASCII text gives exactly the character codes, and text with no ASCII character gives nothing (with AsciiBytesAppend this fixes every input: non-ASCII characters are dropped) |
| HostProtocol.Chunks | module/arduinoHID.py:264-266 | `text[i:i+30]` for i in `range(0, len, 30)`: ceil(len/30) non-empty slices of at most 30 characters |
| HostProtocol.ChunksCoverText | module/arduinoHID.py:264-266 | the slices, concatenated in order, are the text |
| HostProtocol.PrintFrames | module/arduinoHID.py:265-268 | one KB_PRINT request per slice, in slice order, carrying that slice's ASCII bytes |
| HostProtocol.PrintStep | module/arduinoHID.py:265-266 | printing from position i sends `text[i:i+30]` first, then continues from the end of that slice |
| HostProtocol.PrintPayloadsFit | module/arduinoHID.py:262-271 | `keyboard_print` sends one frame for text of at most 30 characters, otherwise ceil(len/30) frames; each is KB_PRINT with at most 30 parameter bytes |
| HostProtocol.PrintRequests | module/arduinoHID.py:262-271 | `keyboard_print` makes at least one send, and every send is KB_PRINT with at most 30 parameter bytes |
| HostProtocol.PrintPayloadsCoverText | module/arduinoHID.py:262-271 | the payloads of `keyboard_print`, concatenated, are the ASCII bytes of the whole text |
| HostProtocol.FramesCoverChunks | module/arduinoHID.py:265-268 | the payloads of the per-slice frames are the ASCII bytes of the concatenated slices |
| HostProtocol.TypeRequests | module/arduinoHID.py:273-277 | `keyboard_type` makes one KB_WRITE request of `ord(c)` per character, in order |
| HostProtocol.KeyRequests | module/arduinoHID.py:284-290 | one single-byte request per key, in the given order |
| HostProtocol.Reverse | module/arduinoHID.py:288 | `reversed(keys)` puts element n-1-i at position i |
| HostProtocol.HotkeyOrder | module/arduinoHID.py:282-291 | `hotkey` makes 2n requests: it presses keys[i] at step i, then releases keys[n-1-i] at step n+i |
| HostProtocol.HotkeyRequests | module/arduinoHID.py:282-291 | `hotkey` makes 2n requests; the first n are KB_PRESS and the last n KB_RELEASE |
| HostTableCheck.TableIsMaxim | module/arduinoHID.py:77-111 | each of the 256 table entries is eight reflected 0x8C shift-register steps applied to its index |
| Crc8Maxim.Bitwise | module/arduinoHID.py:77-111 | the bit-by-bit CRC-8/MAXIM the table encodes: empty data gives 0, and data ending in the checksum of the bytes before it checksums to 0 |
| HostTableCheck.TableStep | module/arduinoHID.py:153-154 | one lookup `TABLE[crc ^ b]` is one byte of the bit-by-bit register |
| HostTableCheck.Crc8IsMaxim | module/arduinoHID.py:150-155 | `_crc8` equals the bit-by-bit CRC-8/MAXIM on every input |
| HostTableCheck.SwappedPairCollides | module/arduinoHID.py:150-155 | the checksum of 00 F7 equals that of F7 00 (both 0xF7), so a byte swap can go undetected |
| HostSerial.NextEvent | module/arduinoHID.py:167 | `read(1)` on a closed port faults; on an open port it returns the next scripted event, or times out when none is left |
| HostSerial.AfterRead | module/arduinoHID.py:167 | a read consumes exactly one scripted event when there is one and changes nothing else |
| HostSerial.AfterWrite | module/arduinoHID.py:166 | a write on an open port appends the buffer to the log; a closed port logs nothing |
| HostSerial.SerialPort.constructor | module/arduinoHID.py:138 | a new port is open, has nothing written, and will read the given script |
| HostSerial.SerialPort.Write | module/arduinoHID.py:166 | `write` succeeds exactly when the port is open and logs the buffer |
| HostSerial.SerialPort.Read | module/arduinoHID.py:167 | `read(1)` returns NextEvent and leaves the port as AfterRead says |
| HostSerial.SerialPort.Close | module/arduinoHID.py:318 | `close` clears the open flag and keeps script and log |
| HostTransport.GiveUp | module/arduinoHID.py:169-183 | when the last attempt gets no ack it raises "No ACK received"; when it gets CRC_ERROR it raises "CRC error" |
| HostTransport.Verdict | module/arduinoHID.py:175-192 | SUCCESS returns true. INVALID_CMD and PARAM_ERROR raise with the opcode. A serial fault raises a serial error. Any other byte raises "Unknown ACK". Each holds in both directions |
| HostTransport.Repeat | module/arduinoHID.py:164-166 | n attempts write n copies of the frame |
| HostTransport.ExchangeSettlesFrom | module/arduinoHID.py:164-189 | if every reply before reply k can be retried and reply k cannot, reply k decides the call; the frame is written k+1 times and k+1 replies are consumed |
| HostTransport.ExchangeGivesUpFrom | module/arduinoHID.py:164-183 | if every reply within the attempt budget can be retried, the last attempt raises its GiveUp error after `retries` writes |
| HostTransport.ExchangeOutcome | module/arduinoHID.py:164-194 | `_send_packet` on an open port: `retries <= 0` writes nothing and returns false; otherwise the first reply that cannot be retried decides, or the last attempt gives up |
| HostTransport.ExchangeWritesBounded | module/arduinoHID.py:164-166 | whatever the replies, only the frame is written, at most `retries` times, after the earlier log, and the open flag is untouched |
| HostTransport.SuccessIsLastReply | module/arduinoHID.py:177-178 | a call that returns true stops right after the SUCCESS byte: nothing after it is read |
| HostTransport.ExchangeOnClosedPort | module/arduinoHID.py:191-192 | on a closed port the first write raises a serial error and the port is unchanged |
| HostTransport.Exchange | module/arduinoHID.py:164-194 | the retry loop returns false iff no attempt is left (`range(retries)` is empty); it never shrinks the write log; a true result means the port was open and the frame was written |
| HostTransport.Perform | module/arduinoHID.py:157-162 | a request whose arguments or length do not fit a byte raises and leaves the port untouched; false only when the frame fits and `retries <= 0`; true only after a write on an open port |
| HostTransport.RunAll | module/arduinoHID.py:264-268 | the early-exit loop of `keyboard_print`, `keyboard_type`, `hotkey` and `*_press_for`: true means each request wrote at least one frame; false only for a non-empty list with `retries <= 0` |
| HostTransport.RunAllTrueSendsAll | module/arduinoHID.py:264-268 | a loop of requests returns true only if no request raised a ValueError: every one was encoded and sent |
| HostTransport.RunAllAppend | module/arduinoHID.py:284-291 | running a then b is running a and, only if all of a returned true, then b |
| HostTransport.RunAllCons | module/arduinoHID.py:267-268 | the requests after the first run only if the first returned true |
| HostTransport.RunAllPair | module/arduinoHID.py:220-223 | of two requests, the second runs only if the first returned true |
| HostTransport.RunAllSingle | module/arduinoHID.py:220 | a one-request loop is that request |
| HostTransport.HoldThenRelease | module/arduinoHID.py:284-291 | presses, `time.sleep`, releases: with a non-negative length it is the presses then the releases, stopping at the first failure; with a negative one it never returns true, raises ValueError once all presses returned true, and writes nothing after the presses |
| HostTransport.RunAllFrom | module/arduinoHID.py:275-277 | running from position i is request i, then the rest only if it returned true |
| HostTransport.HotkeyStopsAtFailedPress | module/arduinoHID.py:284-286 | if a press fails, the hotkey's run is exactly the run of the presses: no release frame is written |
| HostTransport.RetryExamples | module/arduinoHID.py:164-183 | replies timeout, CRC_ERROR, SUCCESS: three attempts return true after three writes; two attempts raise the CRC error after two writes and leave SUCCESS unread |
| HostDriver.ArduinoHid.constructor | module/arduinoHID.py:138-139 | the driver keeps the given port and retry count |
| HostDriver.ArduinoHid.SendPacket | module/arduinoHID.py:157-194 | the loop of `_send_packet` changes the port and returns the outcome exactly as Perform of the request says. A length that does not fit its byte raises before any write |
| HostDriver.ArduinoHid.Submit | module/arduinoHID.py:206-208 | a request whose argument does not fit its byte raises with nothing written; otherwise it is sent |
| HostDriver.ArduinoHid.MouseMove | module/arduinoHID.py:198-204 | `mouse_move` sends MOUSE_MOVE with the three clamped deltas as signed bytes |
| HostDriver.ArduinoHid.MousePress | module/arduinoHID.py:206-208 | `mouse_press` sends `bytes([button])` with MOUSE_PRESS |
| HostDriver.ArduinoHid.MouseRelease | module/arduinoHID.py:210-212 | `mouse_release` sends `bytes([button])` with MOUSE_RELEASE |
| HostDriver.ArduinoHid.MouseClick | module/arduinoHID.py:214-216 | `mouse_click` sends `bytes([button])` with MOUSE_CLICK |
| HostDriver.ArduinoHid.MousePressFor | module/arduinoHID.py:218-223 | press, sleep `duration` and release only if the press returned true; a negative duration raises ValueError with the button still held; `button` defaults to MOUSE_LEFT and `duration` to 0.2 |
| HostDriver.ArduinoHid.MousePressTimed | module/arduinoHID.py:225-229 | sends the button and the clamped big-endian duration with MOUSE_PRESS_TIMED |
| HostDriver.ArduinoHid.KeyboardPress | module/arduinoHID.py:233-235 | sends `bytes([key])` with KB_PRESS |
| HostDriver.ArduinoHid.KeyboardRelease | module/arduinoHID.py:237-239 | sends `bytes([key])` with KB_RELEASE |
| HostDriver.ArduinoHid.KeyboardWrite | module/arduinoHID.py:241-243 | sends `bytes([key])` with KB_WRITE |
| HostDriver.ArduinoHid.KeyboardReleaseAll | module/arduinoHID.py:245-247 | sends KB_RELEASE_ALL with no parameters |
| HostDriver.ArduinoHid.KeyboardPressFor | module/arduinoHID.py:249-254 | press, sleep `duration` and release only if the press returned true; a negative duration raises ValueError with the key still held |
| HostDriver.ArduinoHid.KeyboardPressTimed | module/arduinoHID.py:256-260 | sends the key and the clamped big-endian duration with KB_PRESS_TIMED |
| HostDriver.ArduinoHid.KeyboardPrint | module/arduinoHID.py:262-271 | the slicing loop changes the port exactly as running the print requests in order, stopping at the first that does not return true |
| HostDriver.ArduinoHid.KeyboardType | module/arduinoHID.py:273-280 | one write per character in order, stopping at the first failure |
| HostDriver.ArduinoHid.PressKeys | module/arduinoHID.py:284-286 | the press loop of `hotkey` presses each key in order, stopping at the first that does not return true |
| HostDriver.ArduinoHid.ReleaseKeys | module/arduinoHID.py:288-290 | the release loop of `hotkey` releases the keys in reverse order, stopping at the first failure |
| HostDriver.ArduinoHid.Hotkey | module/arduinoHID.py:282-291 | the two loops are exactly the press-then-reverse-release requests, stopping at the first failure; a negative `hold_time` (default 0.05) raises ValueError after the presses, with no release sent |
| HostDriver.ArduinoHid.CtrlC | module/arduinoHID.py:295-297 | the hotkey LEFT_CTRL, 'c' |
| HostDriver.ArduinoHid.CtrlV | module/arduinoHID.py:299-301 | the hotkey LEFT_CTRL, 'v' |
| HostDriver.ArduinoHid.CtrlX | module/arduinoHID.py:303-305 | the hotkey LEFT_CTRL, 'x' |
| HostDriver.ArduinoHid.CtrlZ | module/arduinoHID.py:307-309 | the hotkey LEFT_CTRL, 'z' |
| HostDriver.ArduinoHid.CtrlA | module/arduinoHID.py:311-313 | the hotkey LEFT_CTRL, 'a' |
| HostDriver.ArduinoHid.Close | module/arduinoHID.py:315-319 | `close` leaves the port closed, with script and log unchanged, whether it was open or not |
| FirmwareProtocol.AsInt8 | ino_/ardunio_code.c:376-378 | `(int8_t)b` lies in [-128, 127] and is congruent to b mod 256 |
| FirmwareProtocol.Be16 | ino_/ardunio_code.c:429 | the shift-and-or of hi and lo fits 16 bits, with high byte hi and low byte lo |
| FirmwareProtocol.Crc8 | ino_/ardunio_code.c:337-343 | `crc8` of empty data is 0, and data ending in the checksum of the bytes before it checksums to 0 |
| FirmwareProtocol.SendAck | ino_/ardunio_code.c:351-354 | `sendAck` writes exactly the code, and counts a success only for SUCCESS |
| FirmwareProtocol.Refuse | ino_/ardunio_code.c:371-374 | a refused packet appends PARAM_ERROR, counts one error and adds no HID action |
| FirmwareProtocol.Perform | ino_/ardunio_code.c:380-382 | a performed command appends its HID calls, then SUCCESS, and counts one success |
| FirmwareProtocol.KeyWrites | ino_/ardunio_code.c:490-492 | one `Keyboard.write` per parameter byte, in order |
| FirmwareProtocol.ProcessDependsOnlyOnPacket | ino_/ardunio_code.c:356-519 | from any two device states, `processPacket` sends the same ack and appends the same HID calls for the same packet |
| FirmwareProtocol.Process | ino_/ardunio_code.c:356-519 | `processPacket` writes exactly one ack. SUCCESS iff the packet is non-empty with a known opcode and its parameter count; INVALID_CMD iff the opcode is unknown; PARAM_ERROR iff the packet is empty or the count is wrong. Any failure counts an error and adds no HID action |
| FirmwareProtocol.Step | ino_/ardunio_code.c:544-589 | one byte keeps the receiver invariant (`rx_idx <= rx_len <= 31` while reading, so the buffer write is in bounds) and writes at most one ack |
| FirmwareProtocol.Complete | ino_/ardunio_code.c:573-586 | a complete packet with matching checksum is processed; otherwise an error is counted and CRC_ERROR sent |
| FirmwareProtocol.Feed | ino_/ardunio_code.c:544-587 | any byte stream keeps the receiver invariant, only appends acks, and writes at most one ack per byte |
| Firmware.Logger.constructor | ino_/ardunio_code.c:38-41 | the counters start at zero |
| Firmware.Logger.LogPacketReceived | ino_/ardunio_code.c:66-76 | `packet_counter++`, the other counters unchanged |
| Firmware.Logger.LogError | ino_/ardunio_code.c:155-166 | `error_counter++`, the other counters unchanged |
| Firmware.Logger.LogAck | ino_/ardunio_code.c:187-208 | `success_counter++` exactly for SUCCESS |
| Firmware.ComputeCrc8 | ino_/ardunio_code.c:337-343 | the loop of `crc8` over the first len buffer bytes returns the table fold |
| Firmware.Sketch.Snapshot | ino_/ardunio_code.c:346-349 | the globals, read as a value, satisfy the receiver invariant |
| Firmware.Sketch.constructor | ino_/ardunio_code.c:346-349 | the globals start in state 0 with nothing stored or produced |
| Firmware.Sketch.SendAck | ino_/ardunio_code.c:351-354 | `sendAck` changes the outputs as the function SendAck says and leaves the receiver alone |
| Firmware.Sketch.RefuseParams | ino_/ardunio_code.c:371-374 | a parameter error counts an error and sends PARAM_ERROR |
| Firmware.Sketch.Succeed | ino_/ardunio_code.c:381-382 | the HID calls are appended, then SUCCESS is sent |
| Firmware.Sketch.TypeParams | ino_/ardunio_code.c:490-492 | the KB_PRINT loop appends one key write per parameter byte |
| Firmware.Sketch.ProcessPacket | ino_/ardunio_code.c:356-519 | the `switch` changes the outputs exactly as Process says of the buffer's first len bytes |
| Firmware.Sketch.ReadLength | ino_/ardunio_code.c:557-568 | case 1 of `loop` is one Step on the length byte |
| Firmware.Sketch.ReadData | ino_/ardunio_code.c:570-587 | case 2 of `loop` is one Step on a data or checksum byte, with the buffer write in bounds |
| Firmware.Sketch.ReceiveByte | ino_/ardunio_code.c:549-588 | one pass of the `while` body is one Step and keeps the invariant |
| Firmware.Sketch.Loop | ino_/ardunio_code.c:546-589 | draining the serial input is Feed over the bytes |
| EndToEnd.TablesAgree | ino_/ardunio_code.c:302-335 | the device's table is the host's, entry for entry |
| EndToEnd.Crc8Agree | ino_/ardunio_code.c:337-343 | host and device compute the same checksum of every byte sequence |
| EndToEnd.FeedAppend | ino_/ardunio_code.c:546-589 | feeding a then b is feeding a + b |
| EndToEnd.FeedLast | ino_/ardunio_code.c:546-547 | the last byte is one more Step after the rest |
| EndToEnd.FeedPayload | ino_/ardunio_code.c:570-573 | before the last byte, data bytes are only stored |
| EndToEnd.NoiseIgnored | ino_/ardunio_code.c:550-555 | in state 0, bytes other than 0xAA change nothing, not even the outputs |
| EndToEnd.Header | ino_/ardunio_code.c:550-568 | a sync byte and a length of 1..31 start a packet and count it |
| EndToEnd.Trailer | ino_/ardunio_code.c:573-586 | the checksum byte completes the packet and returns the receiver to state 0 |
| EndToEnd.Buffered | ino_/ardunio_code.c:550-573 | sync, length n and n data bytes leave the packet counted and buffered |
| EndToEnd.PacketReceived | ino_/ardunio_code.c:546-589 | a whole packet on the wire reaches the checksum check with exactly its data |
| EndToEnd.FrameLayout | module/arduinoHID.py:157-162 | the host frame is sync byte, length, packet, and the device's checksum of the packet |
| EndToEnd.FrameDelivered | ino_/ardunio_code.c:546-589 | a host frame with at most 30 parameters reaches `processPacket` as exactly opcode followed by parameters, counted as one packet; the receiver then waits for the next sync byte |
| EndToEnd.BadLengthRefused | ino_/ardunio_code.c:557-563 | a length of 0 or over 31 gets one PARAM_ERROR, is not counted, and returns to state 0 |
| EndToEnd.CorruptedFrameRejected | ino_/ardunio_code.c:577-582 | a wrong checksum byte gets CRC_ERROR and an error count, with no HID action |
| EndToEnd.ConstantsAgree | ino_/ardunio_code.c:5-26 | both ends use the same sync byte, ack codes and opcodes |
| EndToEnd.SignedByteRoundTrip | ino_/ardunio_code.c:376-378 | `(int8_t)` recovers every signed value the host packs |
| EndToEnd.AsInt8RoundTrip | ino_/ardunio_code.c:376-378 | the host's packing recovers every byte read as `(int8_t)` |
| EndToEnd.Be16RoundTrip | ino_/ardunio_code.c:429 | the shift-and-or of the two bytes recovers every 16-bit value split big-endian |
| EndToEnd.MouseMoveDelivered | ino_/ardunio_code.c:370-384 | `mouse_move(x, y, wheel)` moves by exactly the clamped deltas, signs intact, and acks SUCCESS |
| EndToEnd.TimedDelivered | ino_/ardunio_code.c:422-437 | a timed mouse or key press presses, waits exactly the clamped duration, releases the same code, and acks SUCCESS |
| EndToEnd.ByteCommandDelivered | ino_/ardunio_code.c:386-473 | each single-byte command performs the one HID call its opcode names, with that byte |
| EndToEnd.ReleaseAllDelivered | ino_/ardunio_code.c:475-485 | release-all performs `Keyboard.releaseAll` |
| EndToEnd.PrintDelivered | ino_/ardunio_code.c:487-495 | a KB_PRINT packet types its payload bytes in order |

## Left out

- `__init__` (module/arduinoHID.py:113-148): port auto-detection, opening the port at a baud rate, the 2-second settle and the buffer resets are I/O. The driver model starts from an opened port.
- No time passes in the model: `time.sleep` in the retry loop, `*_press_for`, `keyboard_type` and `hotkey` is not modelled as a delay. Its one effect on the protocol is kept: `time.sleep` raises ValueError for a negative length. The press-for methods and `hotkey` call it without a guard, after the presses and before any release (HostTransport.HoldThenRelease). `keyboard_type` sleeps only when `delay > 0`, so it never raises, and its `delay` parameter is dropped.
- `time.sleep` also rejects NaN and overlarge lengths. Those cases are not modelled: the lengths are `real`s.
- `__enter__`/`__exit__` only return self and call `close`.
- The firmware's `Serial1` log text, `snprintf` formatting, key and button names, and `logPacketData`/`logKeyboardPrint` output are not modelled. Only the counters the Logger updates are kept.
- `logStats` (floating-point success rate), the `millis()` stats timer and `setup()` are left out.
- `delay(ms)` is a `Wait(ms)` entry in the HID trace. No time passes.
- `Mouse.*` and `Keyboard.*` are opaque actions appended to the trace.
- Port detection, window capture and the demo scripts are outside the protocol.
- HostTableCheck.TableIsMaxim: the check covers the host table. The device table is tied to it by EndToEnd.TablesAgree, not checked on its own.
