/**
 * The host side of the wire protocol (module/arduinoHID.py): the protocol
 * constants, the table-driven checksum, the frame layout, and the parameter
 * encodings of every command. These are the pure parts of the driver; the
 * class that sends frames over the serial port is in HostDriver.
 */
module HostProtocol {
  import opened Bytes

  // Protocol bytes.
  const SYNC_BYTE: byte := 0xAA
  const ACK_SUCCESS: byte := 0xF0
  const ACK_CRC_ERROR: byte := 0xF1
  const ACK_INVALID_CMD: byte := 0xF2
  const ACK_PARAM_ERROR: byte := 0xF3

  // Command opcodes.
  const CMD_MOUSE_MOVE: byte := 0x01
  const CMD_MOUSE_PRESS: byte := 0x02
  const CMD_MOUSE_RELEASE: byte := 0x03
  const CMD_MOUSE_CLICK: byte := 0x04
  const CMD_MOUSE_PRESS_TIMED: byte := 0x05
  const CMD_KB_PRESS: byte := 0x10
  const CMD_KB_RELEASE: byte := 0x11
  const CMD_KB_WRITE: byte := 0x12
  const CMD_KB_RELEASE_ALL: byte := 0x13
  const CMD_KB_PRINT: byte := 0x14
  const CMD_KB_PRESS_TIMED: byte := 0x15

  // Mouse button masks and the one key code the shortcuts use.
  const MOUSE_LEFT: byte := 0x01
  const MOUSE_RIGHT: byte := 0x02
  const MOUSE_MIDDLE: byte := 0x04
  const MOUSE_ALL: byte := 0x07
  const KEY_LEFT_CTRL: byte := 0x80

  /** `keyboard_print` sends text in slices of this many characters. */
  const PRINT_CHUNK: nat := 30

  /**
   * The CRC-8/MAXIM lookup table, in the driver's own rows of eight. The rows
   * are concatenated as a balanced tree so that the verifier can index the
   * table without walking all 256 elements.
   */
  const CRC8_ROW_00: seq<byte> := [0x00, 0x5E, 0xBC, 0xE2, 0x61, 0x3F, 0xDD, 0x83]
  const CRC8_ROW_01: seq<byte> := [0xC2, 0x9C, 0x7E, 0x20, 0xA3, 0xFD, 0x1F, 0x41]
  const CRC8_ROW_02: seq<byte> := [0x9D, 0xC3, 0x21, 0x7F, 0xFC, 0xA2, 0x40, 0x1E]
  const CRC8_ROW_03: seq<byte> := [0x5F, 0x01, 0xE3, 0xBD, 0x3E, 0x60, 0x82, 0xDC]
  const CRC8_ROW_04: seq<byte> := [0x23, 0x7D, 0x9F, 0xC1, 0x42, 0x1C, 0xFE, 0xA0]
  const CRC8_ROW_05: seq<byte> := [0xE1, 0xBF, 0x5D, 0x03, 0x80, 0xDE, 0x3C, 0x62]
  const CRC8_ROW_06: seq<byte> := [0xBE, 0xE0, 0x02, 0x5C, 0xDF, 0x81, 0x63, 0x3D]
  const CRC8_ROW_07: seq<byte> := [0x7C, 0x22, 0xC0, 0x9E, 0x1D, 0x43, 0xA1, 0xFF]
  const CRC8_ROW_08: seq<byte> := [0x46, 0x18, 0xFA, 0xA4, 0x27, 0x79, 0x9B, 0xC5]
  const CRC8_ROW_09: seq<byte> := [0x84, 0xDA, 0x38, 0x66, 0xE5, 0xBB, 0x59, 0x07]
  const CRC8_ROW_10: seq<byte> := [0xDB, 0x85, 0x67, 0x39, 0xBA, 0xE4, 0x06, 0x58]
  const CRC8_ROW_11: seq<byte> := [0x19, 0x47, 0xA5, 0xFB, 0x78, 0x26, 0xC4, 0x9A]
  const CRC8_ROW_12: seq<byte> := [0x65, 0x3B, 0xD9, 0x87, 0x04, 0x5A, 0xB8, 0xE6]
  const CRC8_ROW_13: seq<byte> := [0xA7, 0xF9, 0x1B, 0x45, 0xC6, 0x98, 0x7A, 0x24]
  const CRC8_ROW_14: seq<byte> := [0xF8, 0xA6, 0x44, 0x1A, 0x99, 0xC7, 0x25, 0x7B]
  const CRC8_ROW_15: seq<byte> := [0x3A, 0x64, 0x86, 0xD8, 0x5B, 0x05, 0xE7, 0xB9]
  const CRC8_ROW_16: seq<byte> := [0x8C, 0xD2, 0x30, 0x6E, 0xED, 0xB3, 0x51, 0x0F]
  const CRC8_ROW_17: seq<byte> := [0x4E, 0x10, 0xF2, 0xAC, 0x2F, 0x71, 0x93, 0xCD]
  const CRC8_ROW_18: seq<byte> := [0x11, 0x4F, 0xAD, 0xF3, 0x70, 0x2E, 0xCC, 0x92]
  const CRC8_ROW_19: seq<byte> := [0xD3, 0x8D, 0x6F, 0x31, 0xB2, 0xEC, 0x0E, 0x50]
  const CRC8_ROW_20: seq<byte> := [0xAF, 0xF1, 0x13, 0x4D, 0xCE, 0x90, 0x72, 0x2C]
  const CRC8_ROW_21: seq<byte> := [0x6D, 0x33, 0xD1, 0x8F, 0x0C, 0x52, 0xB0, 0xEE]
  const CRC8_ROW_22: seq<byte> := [0x32, 0x6C, 0x8E, 0xD0, 0x53, 0x0D, 0xEF, 0xB1]
  const CRC8_ROW_23: seq<byte> := [0xF0, 0xAE, 0x4C, 0x12, 0x91, 0xCF, 0x2D, 0x73]
  const CRC8_ROW_24: seq<byte> := [0xCA, 0x94, 0x76, 0x28, 0xAB, 0xF5, 0x17, 0x49]
  const CRC8_ROW_25: seq<byte> := [0x08, 0x56, 0xB4, 0xEA, 0x69, 0x37, 0xD5, 0x8B]
  const CRC8_ROW_26: seq<byte> := [0x57, 0x09, 0xEB, 0xB5, 0x36, 0x68, 0x8A, 0xD4]
  const CRC8_ROW_27: seq<byte> := [0x95, 0xCB, 0x29, 0x77, 0xF4, 0xAA, 0x48, 0x16]
  const CRC8_ROW_28: seq<byte> := [0xE9, 0xB7, 0x55, 0x0B, 0x88, 0xD6, 0x34, 0x6A]
  const CRC8_ROW_29: seq<byte> := [0x2B, 0x75, 0x97, 0xC9, 0x4A, 0x14, 0xF6, 0xA8]
  const CRC8_ROW_30: seq<byte> := [0x74, 0x2A, 0xC8, 0x96, 0x15, 0x4B, 0xA9, 0xF7]
  const CRC8_ROW_31: seq<byte> := [0xB6, 0xE8, 0x0A, 0x54, 0xD7, 0x89, 0x6B, 0x35]

  const CRC8_TABLE: seq<byte> :=
    ((((CRC8_ROW_00 + CRC8_ROW_01) + (CRC8_ROW_02 + CRC8_ROW_03)) + ((CRC8_ROW_04 +
    CRC8_ROW_05) + (CRC8_ROW_06 + CRC8_ROW_07))) + (((CRC8_ROW_08 + CRC8_ROW_09) +
    (CRC8_ROW_10 + CRC8_ROW_11)) + ((CRC8_ROW_12 + CRC8_ROW_13) + (CRC8_ROW_14 +
    CRC8_ROW_15)))) + ((((CRC8_ROW_16 + CRC8_ROW_17) + (CRC8_ROW_18 + CRC8_ROW_19)) +
    ((CRC8_ROW_20 + CRC8_ROW_21) + (CRC8_ROW_22 + CRC8_ROW_23))) + (((CRC8_ROW_24 +
    CRC8_ROW_25) + (CRC8_ROW_26 + CRC8_ROW_27)) + ((CRC8_ROW_28 + CRC8_ROW_29) + (CRC8_ROW_30 +
    CRC8_ROW_31))))

  /** `_crc8`: start at 0 and fold `crc := CRC8_TABLE[crc ^ byte]` over the data. */
  function Crc8(data: seq<byte>): (r: byte)
    ensures |data| == 0 ==> r == 0
    ensures |data| > 0 && data[|data| - 1] == Crc8(data[..|data| - 1]) ==> r == 0
  {
    if |data| == 0 then 0
    else
      assert CRC8_TABLE[0] == CRC8_ROW_00[0];
      CRC8_TABLE[Xor(Crc8(data[..|data| - 1]), data[|data| - 1])]
  }

  /** The loop of `_crc8`, proved to compute Crc8. */
  method ComputeCrc8(data: seq<byte>) returns (crc: byte)
    ensures crc == Crc8(data)
  {
    crc := 0x00;
    for i := 0 to |data|
      invariant crc == Crc8(data[..i])
    {
      assert data[..i + 1][..i] == data[..i];
      crc := CRC8_TABLE[Xor(crc, data[i])];
    }
    assert data[..|data|] == data;
  }

  /**
   * The frame `_send_packet` writes: sync byte, length of opcode plus
   * parameters, opcode, parameters, and the checksum of opcode and
   * parameters only. The length must fit its byte (`bytes([...])` raises
   * otherwise; the driver model checks this before building a frame).
   */
  function Frame(cmd: byte, params: seq<byte>): (f: seq<byte>)
    requires 1 + |params| < 256
    ensures |f| == |params| + 4
    ensures f[0] == SYNC_BYTE && f[1] == |f| - 3
    ensures f[2..|f| - 1] == [cmd] + params
    ensures f[|f| - 1] == Crc8(f[2..|f| - 1])
  {
    var data := [cmd] + params;
    var n: byte := |data|;
    var head: seq<byte> := [SYNC_BYTE, n];
    var f := head + data + [Crc8(data)];
    assert f[2..|f| - 1] == data;
    f
  }

  /** `max(lo, min(hi, v))`: the value of [lo, hi] nearest to v. */
  function Clamp(v: int, lo: int, hi: int): (r: int)
    requires lo <= hi
    ensures lo <= r <= hi
    ensures lo <= v <= hi ==> r == v
    ensures v < lo ==> r == lo
    ensures hi < v ==> r == hi
  {
    var m := if v < hi then v else hi;
    if lo > m then lo else m
  }

  /** `struct.pack('b', v)`: the two's-complement byte of a signed value. */
  function SignedByte(v: int): (r: byte)
    requires -128 <= v < 128
    ensures r == v % 256
    ensures r >= 128 <==> v < 0
  {
    if v < 0 then v + 256 else v
  }

  /** A mouse delta clamped to [-127, 127]. */
  function ClampDelta(v: int): int
  {
    Clamp(v, -127, 127)
  }

  /** A press duration clamped to [1, 65535] milliseconds. */
  function ClampDuration(ms: int): int
  {
    Clamp(ms, 1, 65535)
  }

  /** The parameters of `mouse_move`: three clamped signed bytes. */
  function MouseMoveParams(x: int, y: int, wheel: int): (p: seq<byte>)
    ensures |p| == 3
  {
    [SignedByte(ClampDelta(x)), SignedByte(ClampDelta(y)), SignedByte(ClampDelta(wheel))]
  }

  /** `struct.pack('>BH', code, ms)` after clamping: a code byte and a big-endian duration. */
  function TimedParams(code: byte, ms: int): (p: seq<byte>)
    ensures |p| == 3 && p[0] == code
    ensures p[1] as int * 256 + p[2] as int == ClampDuration(ms)
  {
    var d := ClampDuration(ms);
    [code, d / 256, d % 256]
  }

  /** `s.encode('ascii', errors='ignore')`: the ASCII characters of s, others dropped. */
  function AsciiBytes(s: string): (r: seq<byte>)
    ensures |r| <= |s|
    ensures forall i :: 0 <= i < |r| ==> r[i] < 128
    ensures (forall i :: 0 <= i < |s| ==> s[i] < 128 as char) ==>
              |r| == |s| && forall i :: 0 <= i < |s| ==> r[i] == s[i] as int
    ensures (forall i :: 0 <= i < |s| ==> s[i] >= 128 as char) ==> r == []
  {
    if |s| == 0 then []
    else (if s[0] < 128 as char then [s[0] as int] else []) + AsciiBytes(s[1..])
  }

  /** The slices `text[i:i+30]` for i in `range(0, len(text), 30)`. */
  function Chunks(text: string): (cs: seq<string>)
    ensures forall j :: 0 <= j < |cs| ==> 0 < |cs[j]| <= PRINT_CHUNK
    ensures |cs| == (|text| + PRINT_CHUNK - 1) / PRINT_CHUNK
  {
    if |text| == 0 then []
    else if |text| <= PRINT_CHUNK then [text]
    else [text[..PRINT_CHUNK]] + Chunks(text[PRINT_CHUNK..])
  }

  /** The concatenation of a sequence of strings. */
  function Flatten(cs: seq<string>): string
  {
    if |cs| == 0 then [] else cs[0] + Flatten(cs[1..])
  }

  /** The slices of `keyboard_print`, read back in order, are the whole text. */
  lemma {:induction false} ChunksCoverText(text: string)
    ensures Flatten(Chunks(text)) == text
    decreases |text|
  {
    if |text| > PRINT_CHUNK {
      var cs := Chunks(text);
      assert cs[1..] == Chunks(text[PRINT_CHUNK..]);
      ChunksCoverText(text[PRINT_CHUNK..]);
      assert text == text[..PRINT_CHUNK] + text[PRINT_CHUNK..];
    }
  }

  /** What the driver raises: ArduinoHIDException's cases, and ValueError from `bytes`/`struct`. */
  datatype HidError =
    | NoAck                   // "No ACK received" after the last attempt
    | CrcError                // "CRC error" after the last attempt
    | InvalidCommand(cmd: byte)
    | ParamError(cmd: byte)
    | UnknownAck(code: byte)
    | SerialError             // a SerialException from the port
    | ValueOutOfRange(value: int)  // an argument that does not fit its byte field
    | NegativeSleep           // ValueError from `time.sleep` given a negative length

  /**
   * One call of `_send_packet` as a public method makes it, or the exception
   * its argument encoding raises before `_send_packet` is reached.
   */
  datatype Request = Send(cmd: byte, params: seq<byte>) | Reject(error: HidError)

  /** `_send_packet(cmd, bytes([v]))`; `bytes` raises ValueError unless 0 <= v < 256. */
  function ByteRequest(cmd: byte, v: int): (r: Request)
    ensures r.Send? <==> 0 <= v < 256
    ensures r.Send? ==> r.cmd == cmd && |r.params| == 1 && r.params[0] == v
    ensures r.Reject? ==> r.error == ValueOutOfRange(v)
  {
    if 0 <= v < 256 then Send(cmd, [v]) else Reject(ValueOutOfRange(v))
  }

  /** The request of `mouse_move`. */
  function MouseMoveRequest(x: int, y: int, wheel: int): (r: Request)
    ensures r.Send? && r.cmd == CMD_MOUSE_MOVE && |r.params| == 3
    ensures forall i :: 0 <= i < 3 ==>
              (if r.params[i] < 128 then r.params[i] as int else r.params[i] as int - 256) == ClampDelta([x, y, wheel][i])
  {
    Send(CMD_MOUSE_MOVE, MouseMoveParams(x, y, wheel))
  }

  /** The request of a timed press; `struct.pack('>BH')` rejects a code outside a byte. */
  function TimedRequest(cmd: byte, code: int, ms: int): (r: Request)
    ensures r.Send? <==> 0 <= code < 256
    ensures r.Send? ==>
              r.cmd == cmd && |r.params| == 3 && r.params[0] == code &&
              1 <= r.params[1] as int * 256 + r.params[2] as int <= 65535 &&
              (1 <= ms <= 65535 ==> r.params[1] as int * 256 + r.params[2] as int == ms)
    ensures r.Reject? ==> r.error == ValueOutOfRange(code)
  {
    if 0 <= code < 256 then Send(cmd, TimedParams(code, ms)) else Reject(ValueOutOfRange(code))
  }

  /** One KB_PRINT frame per slice, in order. */
  function PrintFrames(cs: seq<string>): (rs: seq<Request>)
    ensures |rs| == |cs|
    ensures forall j :: 0 <= j < |cs| ==> rs[j] == Send(CMD_KB_PRINT, AsciiBytes(cs[j]))
  {
    if |cs| == 0 then [] else [Send(CMD_KB_PRINT, AsciiBytes(cs[0]))] + PrintFrames(cs[1..])
  }

  /**
   * Printing text from position i on: the slice `text[i:i+30]` first, then
   * the text from the end of that slice.
   */
  lemma PrintStep(text: string, i: nat)
    requires i < |text|
    ensures var end := if i + PRINT_CHUNK < |text| then i + PRINT_CHUNK else |text|;
      PrintFrames(Chunks(text[i..])) == [Send(CMD_KB_PRINT, AsciiBytes(text[i..end]))] + PrintFrames(Chunks(text[end..]))
  {
    var t := text[i..];
    var end := if i + PRINT_CHUNK < |text| then i + PRINT_CHUNK else |text|;
    assert t[..end - i] == text[i..end];
    assert t[end - i..] == text[end..];
    if |t| <= PRINT_CHUNK {
      assert t[..|t|] == t;
      assert t[|t|..] == [];
    }
  }

  /** The sends of `keyboard_print`: one per slice for long text, else one for the whole text. */
  function PrintRequests(text: string): (rs: seq<Request>)
    ensures |rs| >= 1
    ensures forall j :: 0 <= j < |rs| ==> rs[j].Send? && rs[j].cmd == CMD_KB_PRINT && |rs[j].params| <= PRINT_CHUNK
  {
    if |text| > PRINT_CHUNK then PrintFrames(Chunks(text))
    else [Send(CMD_KB_PRINT, AsciiBytes(text))]
  }

  /** Every frame `keyboard_print` sends is a KB_PRINT frame of at most 30 ASCII bytes. */
  lemma PrintPayloadsFit(text: string)
    ensures |PrintRequests(text)| == if |text| <= PRINT_CHUNK then 1 else (|text| + PRINT_CHUNK - 1) / PRINT_CHUNK
    ensures forall j :: 0 <= j < |PrintRequests(text)| ==>
              PrintRequests(text)[j].Send? && PrintRequests(text)[j].cmd == CMD_KB_PRINT &&
              |PrintRequests(text)[j].params| <= PRINT_CHUNK
  {
  }

  /** The payloads of `keyboard_print`, read back in order, are the ASCII bytes of the text. */
  lemma {:induction false} PrintPayloadsCoverText(text: string)
    ensures Payloads(PrintRequests(text)) == AsciiBytes(text)
  {
    if |text| > PRINT_CHUNK {
      ChunksCoverText(text);
      FramesCoverChunks(Chunks(text));
    }
  }

  /** The parameters of a sequence of sends, concatenated. */
  function Payloads(rs: seq<Request>): seq<byte>
  {
    if |rs| == 0 then []
    else (if rs[0].Send? then rs[0].params else []) + Payloads(rs[1..])
  }

  lemma {:induction false} AsciiBytesAppend(a: string, b: string)
    ensures AsciiBytes(a + b) == AsciiBytes(a) + AsciiBytes(b)
    decreases |a|
  {
    if |a| == 0 {
      assert a + b == b;
    } else {
      assert (a + b)[0] == a[0];
      assert (a + b)[1..] == a[1..] + b;
      AsciiBytesAppend(a[1..], b);
    }
  }

  lemma {:induction false} FramesCoverChunks(cs: seq<string>)
    ensures Payloads(PrintFrames(cs)) == AsciiBytes(Flatten(cs))
    decreases |cs|
  {
    if |cs| > 0 {
      var rs := PrintFrames(cs);
      assert rs[1..] == PrintFrames(cs[1..]);
      FramesCoverChunks(cs[1..]);
      AsciiBytesAppend(cs[0], Flatten(cs[1..]));
    }
  }

  /** The writes of `keyboard_type`: one KB_WRITE of `ord(char)` per character, in order. */
  function TypeRequests(text: string): (rs: seq<Request>)
    ensures |rs| == |text|
    ensures forall i :: 0 <= i < |text| ==> rs[i] == ByteRequest(CMD_KB_WRITE, text[i] as int)
  {
    if |text| == 0 then [] else [ByteRequest(CMD_KB_WRITE, text[0] as int)] + TypeRequests(text[1..])
  }

  /** One single-byte request with opcode cmd per key, in the given order. */
  function KeyRequests(cmd: byte, keys: seq<int>): (rs: seq<Request>)
    ensures |rs| == |keys|
    ensures forall i :: 0 <= i < |keys| ==> rs[i] == ByteRequest(cmd, keys[i])
  {
    if |keys| == 0 then [] else [ByteRequest(cmd, keys[0])] + KeyRequests(cmd, keys[1..])
  }

  /** `reversed(keys)`. */
  function Reverse(s: seq<int>): (r: seq<int>)
    ensures |r| == |s|
    ensures forall i :: 0 <= i < |s| ==> r[i] == s[|s| - 1 - i]
  {
    if |s| == 0 then [] else [s[|s| - 1]] + Reverse(s[..|s| - 1])
  }

  /** The sends of `hotkey`: press every key in order, then release them in reverse order. */
  function HotkeyRequests(keys: seq<int>): (rs: seq<Request>)
    ensures |rs| == 2 * |keys|
    ensures forall i :: 0 <= i < |rs| && rs[i].Send? ==>
              rs[i].cmd == if i < |keys| then CMD_KB_PRESS else CMD_KB_RELEASE
  {
    KeyRequests(CMD_KB_PRESS, keys) + KeyRequests(CMD_KB_RELEASE, Reverse(keys))
  }

  /** `hotkey` presses keys[i] at step i and releases keys[n-1-i] at step n+i. */
  lemma HotkeyOrder(keys: seq<int>)
    ensures |HotkeyRequests(keys)| == 2 * |keys|
    ensures forall i :: 0 <= i < |keys| ==> HotkeyRequests(keys)[i] == ByteRequest(CMD_KB_PRESS, keys[i])
    ensures forall i :: |keys| <= i < 2 * |keys| ==>
              HotkeyRequests(keys)[i] == ByteRequest(CMD_KB_RELEASE, keys[2 * |keys| - 1 - i])
  {
  }
}
