/**
 * The firmware side of the wire protocol (ino_/ardunio_code.c) as values:
 * the device's constants and checksum, the HID actions it performs, the
 * receive state machine one byte at a time (`Step`), and `processPacket`
 * (`Process`). The sketch's globals that these functions transform are the
 * fields of the classes in module Firmware, which are proved against them.
 */
module FirmwareProtocol {
  import opened Bytes

  // Protocol bytes, as the sketch defines them.
  const SYNC_BYTE: byte := 0xAA
  const MAX_PACKET_SIZE: nat := 32
  const ACK_SUCCESS: byte := 0xF0
  const ACK_CRC_ERROR: byte := 0xF1
  const ACK_INVALID_CMD: byte := 0xF2
  const ACK_PARAM_ERROR: byte := 0xF3

  // Command opcodes.
  const CMD_MOUSE_MOVE: byte := 0x01
  const CMD_MOUSE_PRESS: byte := 0x02
  const CMD_MOUSE_RELEASE: byte := 0x03
  const CMD_MOUSE_CLICK: byte := 0x04
  const CMD_MOUSE_PRESS_TIMED: byte := 0x05
  const CMD_KB_PRESS: byte := 0x10
  const CMD_KB_RELEASE: byte := 0x11
  const CMD_KB_WRITE: byte := 0x12
  const CMD_KB_RELEASE_ALL: byte := 0x13
  const CMD_KB_PRINT: byte := 0x14
  const CMD_KB_PRESS_TIMED: byte := 0x15

  /**
   * The sketch's copy of the CRC-8/MAXIM table, in its own rows of eight,
   * concatenated as a balanced tree like the host's copy.
   */
  const CRC8_ROW_00: seq<byte> := [0x00, 0x5E, 0xBC, 0xE2, 0x61, 0x3F, 0xDD, 0x83]
  const CRC8_ROW_01: seq<byte> := [0xC2, 0x9C, 0x7E, 0x20, 0xA3, 0xFD, 0x1F, 0x41]
  const CRC8_ROW_02: seq<byte> := [0x9D, 0xC3, 0x21, 0x7F, 0xFC, 0xA2, 0x40, 0x1E]
  const CRC8_ROW_03: seq<byte> := [0x5F, 0x01, 0xE3, 0xBD, 0x3E, 0x60, 0x82, 0xDC]
  const CRC8_ROW_04: seq<byte> := [0x23, 0x7D, 0x9F, 0xC1, 0x42, 0x1C, 0xFE, 0xA0]
  const CRC8_ROW_05: seq<byte> := [0xE1, 0xBF, 0x5D, 0x03, 0x80, 0xDE, 0x3C, 0x62]
  const CRC8_ROW_06: seq<byte> := [0xBE, 0xE0, 0x02, 0x5C, 0xDF, 0x81, 0x63, 0x3D]
  const CRC8_ROW_07: seq<byte> := [0x7C, 0x22, 0xC0, 0x9E, 0x1D, 0x43, 0xA1, 0xFF]
  const CRC8_ROW_08: seq<byte> := [0x46, 0x18, 0xFA, 0xA4, 0x27, 0x79, 0x9B, 0xC5]
  const CRC8_ROW_09: seq<byte> := [0x84, 0xDA, 0x38, 0x66, 0xE5, 0xBB, 0x59, 0x07]
  const CRC8_ROW_10: seq<byte> := [0xDB, 0x85, 0x67, 0x39, 0xBA, 0xE4, 0x06, 0x58]
  const CRC8_ROW_11: seq<byte> := [0x19, 0x47, 0xA5, 0xFB, 0x78, 0x26, 0xC4, 0x9A]
  const CRC8_ROW_12: seq<byte> := [0x65, 0x3B, 0xD9, 0x87, 0x04, 0x5A, 0xB8, 0xE6]
  const CRC8_ROW_13: seq<byte> := [0xA7, 0xF9, 0x1B, 0x45, 0xC6, 0x98, 0x7A, 0x24]
  const CRC8_ROW_14: seq<byte> := [0xF8, 0xA6, 0x44, 0x1A, 0x99, 0xC7, 0x25, 0x7B]
  const CRC8_ROW_15: seq<byte> := [0x3A, 0x64, 0x86, 0xD8, 0x5B, 0x05, 0xE7, 0xB9]
  const CRC8_ROW_16: seq<byte> := [0x8C, 0xD2, 0x30, 0x6E, 0xED, 0xB3, 0x51, 0x0F]
  const CRC8_ROW_17: seq<byte> := [0x4E, 0x10, 0xF2, 0xAC, 0x2F, 0x71, 0x93, 0xCD]
  const CRC8_ROW_18: seq<byte> := [0x11, 0x4F, 0xAD, 0xF3, 0x70, 0x2E, 0xCC, 0x92]
  const CRC8_ROW_19: seq<byte> := [0xD3, 0x8D, 0x6F, 0x31, 0xB2, 0xEC, 0x0E, 0x50]
  const CRC8_ROW_20: seq<byte> := [0xAF, 0xF1, 0x13, 0x4D, 0xCE, 0x90, 0x72, 0x2C]
  const CRC8_ROW_21: seq<byte> := [0x6D, 0x33, 0xD1, 0x8F, 0x0C, 0x52, 0xB0, 0xEE]
  const CRC8_ROW_22: seq<byte> := [0x32, 0x6C, 0x8E, 0xD0, 0x53, 0x0D, 0xEF, 0xB1]
  const CRC8_ROW_23: seq<byte> := [0xF0, 0xAE, 0x4C, 0x12, 0x91, 0xCF, 0x2D, 0x73]
  const CRC8_ROW_24: seq<byte> := [0xCA, 0x94, 0x76, 0x28, 0xAB, 0xF5, 0x17, 0x49]
  const CRC8_ROW_25: seq<byte> := [0x08, 0x56, 0xB4, 0xEA, 0x69, 0x37, 0xD5, 0x8B]
  const CRC8_ROW_26: seq<byte> := [0x57, 0x09, 0xEB, 0xB5, 0x36, 0x68, 0x8A, 0xD4]
  const CRC8_ROW_27: seq<byte> := [0x95, 0xCB, 0x29, 0x77, 0xF4, 0xAA, 0x48, 0x16]
  const CRC8_ROW_28: seq<byte> := [0xE9, 0xB7, 0x55, 0x0B, 0x88, 0xD6, 0x34, 0x6A]
  const CRC8_ROW_29: seq<byte> := [0x2B, 0x75, 0x97, 0xC9, 0x4A, 0x14, 0xF6, 0xA8]
  const CRC8_ROW_30: seq<byte> := [0x74, 0x2A, 0xC8, 0x96, 0x15, 0x4B, 0xA9, 0xF7]
  const CRC8_ROW_31: seq<byte> := [0xB6, 0xE8, 0x0A, 0x54, 0xD7, 0x89, 0x6B, 0x35]

  const CRC8_TABLE: seq<byte> :=
    ((((CRC8_ROW_00 + CRC8_ROW_01) + (CRC8_ROW_02 + CRC8_ROW_03)) + ((CRC8_ROW_04 +
    CRC8_ROW_05) + (CRC8_ROW_06 + CRC8_ROW_07))) + (((CRC8_ROW_08 + CRC8_ROW_09) +
    (CRC8_ROW_10 + CRC8_ROW_11)) + ((CRC8_ROW_12 + CRC8_ROW_13) + (CRC8_ROW_14 +
    CRC8_ROW_15)))) + ((((CRC8_ROW_16 + CRC8_ROW_17) + (CRC8_ROW_18 + CRC8_ROW_19)) +
    ((CRC8_ROW_20 + CRC8_ROW_21) + (CRC8_ROW_22 + CRC8_ROW_23))) + (((CRC8_ROW_24 +
    CRC8_ROW_25) + (CRC8_ROW_26 + CRC8_ROW_27)) + ((CRC8_ROW_28 + CRC8_ROW_29) + (CRC8_ROW_30 +
    CRC8_ROW_31))))

  /** `crc8(data, len)`: start at 0 and fold `crc := CRC8_TABLE[crc ^ data[i]]`. */
  function Crc8(data: seq<byte>): (r: byte)
    ensures |data| == 0 ==> r == 0
    ensures |data| > 0 && data[|data| - 1] == Crc8(data[..|data| - 1]) ==> r == 0
  {
    if |data| == 0 then 0
    else
      assert CRC8_TABLE[0] == CRC8_ROW_00[0];
      CRC8_TABLE[Xor(Crc8(data[..|data| - 1]), data[|data| - 1])]
  }

  /** `(int8_t)b`: the byte read as two's complement. */
  function AsInt8(b: byte): (v: int)
    ensures -128 <= v < 128
    ensures (v - b) % 256 == 0
  {
    if b < 128 then b else b - 256
  }

  /**
   * `(uint16_t)((hi << 8) | lo)`. The shifted byte has a zero low byte, so
   * the or is a sum, and the result fits in 16 bits.
   */
  function Be16(hi: byte, lo: byte): (v: int)
    ensures 0 <= v < 0x1_0000
    ensures v / 256 == hi && v % 256 == lo
  {
    hi * 256 + lo
  }

  /** The calls into the Mouse and Keyboard libraries, recorded in order. */
  datatype HidAction =
    | MouseMove(x: int, y: int, wheel: int)
    | MousePress(button: byte)
    | MouseRelease(button: byte)
    | MouseClick(button: byte)
    | KeyPress(key: byte)
    | KeyRelease(key: byte)
    | KeyWrite(key: byte)
    | KeyReleaseAll
    | Wait(ms: int)          // delay(ms) between a timed press and its release

  /**
   * What the device has produced: the ack bytes written to the host, the
   * HID actions, and the Logger's three counters.
   */
  datatype Out = Out(acks: seq<byte>, hid: seq<HidAction>, packets: uint32, errors: uint32, successes: uint32)

  /** `sendAck`: write the code; `logACK` counts a success. */
  function SendAck(o: Out, code: byte): (r: Out)
    ensures r.acks == o.acks + [code] && r.hid == o.hid
    ensures r.packets == o.packets && r.errors == o.errors
    ensures r.successes == if code == ACK_SUCCESS then Inc32(o.successes) else o.successes
  {
    o.(acks := o.acks + [code], successes := if code == ACK_SUCCESS then Inc32(o.successes) else o.successes)
  }

  /** `logError`: count an error. */
  function LogError(o: Out): Out
  {
    o.(errors := Inc32(o.errors))
  }

  /** A refused packet: log the error and answer PARAM_ERROR. */
  function Refuse(o: Out): (r: Out)
    ensures r.acks == o.acks + [ACK_PARAM_ERROR] && r.hid == o.hid
    ensures r.errors == Inc32(o.errors) && r.packets == o.packets && r.successes == o.successes
  {
    SendAck(LogError(o), ACK_PARAM_ERROR)
  }

  /** A performed command: its HID actions, then SUCCESS. */
  function Perform(o: Out, actions: seq<HidAction>): (r: Out)
    ensures r.acks == o.acks + [ACK_SUCCESS] && r.hid == o.hid + actions
    ensures r.successes == Inc32(o.successes) && r.packets == o.packets && r.errors == o.errors
  {
    SendAck(o.(hid := o.hid + actions), ACK_SUCCESS)
  }

  /** One `Keyboard.write` per byte, in order. */
  function KeyWrites(p: seq<byte>): (r: seq<HidAction>)
    ensures |r| == |p|
    ensures forall i :: 0 <= i < |p| ==> r[i] == KeyWrite(p[i])
  {
    if |p| == 0 then [] else KeyWrites(p[..|p| - 1]) + [KeyWrite(p[|p| - 1])]
  }

  /** The opcodes `processPacket` has a case for. */
  predicate KnownCommand(cmd: byte)
  {
    cmd in {CMD_MOUSE_MOVE, CMD_MOUSE_PRESS, CMD_MOUSE_RELEASE, CMD_MOUSE_CLICK, CMD_MOUSE_PRESS_TIMED,
            CMD_KB_PRESS, CMD_KB_RELEASE, CMD_KB_WRITE, CMD_KB_RELEASE_ALL, CMD_KB_PRINT, CMD_KB_PRESS_TIMED}
  }

  /**
   * The parameter count each command accepts: three for a move and both
   * timed presses, none for release-all, any number for print, one otherwise.
   */
  predicate ArityOk(cmd: byte, n: nat)
  {
    if cmd == CMD_KB_PRINT then true
    else if cmd in {CMD_MOUSE_MOVE, CMD_MOUSE_PRESS_TIMED, CMD_KB_PRESS_TIMED} then n == 3
    else if cmd == CMD_KB_RELEASE_ALL then n == 0
    else n == 1
  }

  /** A packet `processPacket` carries out. */
  predicate WellFormed(packet: seq<byte>)
  {
    |packet| >= 1 && KnownCommand(packet[0]) && ArityOk(packet[0], |packet| - 1)
  }

  /**
   * `processPacket(data, len)`, the `switch` on the opcode: check the
   * parameter count, perform the HID actions, answer with one ack byte.
   */
  function Process(o: Out, packet: seq<byte>): (r: Out)
    ensures |r.acks| == |o.acks| + 1 && r.acks[..|o.acks|] == o.acks
    ensures r.packets == o.packets
    ensures r.acks[|o.acks|] == ACK_SUCCESS <==> WellFormed(packet)
    ensures r.acks[|o.acks|] == ACK_INVALID_CMD <==> |packet| >= 1 && !KnownCommand(packet[0])
    ensures r.acks[|o.acks|] == ACK_PARAM_ERROR <==>
              |packet| == 0 || (KnownCommand(packet[0]) && !ArityOk(packet[0], |packet| - 1))
    ensures WellFormed(packet) ==>
              r.errors == o.errors && r.successes == Inc32(o.successes) &&
              |r.hid| >= |o.hid| && r.hid[..|o.hid|] == o.hid
    ensures !WellFormed(packet) ==>
              r.errors == Inc32(o.errors) && r.successes == o.successes && r.hid == o.hid
  {
    if |packet| < 1 then Refuse(o)
    else
      var cmd := packet[0];
      var p := packet[1..];
      if cmd == CMD_MOUSE_MOVE then
        if |p| != 3 then Refuse(o) else Perform(o, [MouseMove(AsInt8(p[0]), AsInt8(p[1]), AsInt8(p[2]))])
      else if cmd == CMD_MOUSE_PRESS then
        if |p| != 1 then Refuse(o) else Perform(o, [MousePress(p[0])])
      else if cmd == CMD_MOUSE_RELEASE then
        if |p| != 1 then Refuse(o) else Perform(o, [MouseRelease(p[0])])
      else if cmd == CMD_MOUSE_CLICK then
        if |p| != 1 then Refuse(o) else Perform(o, [MouseClick(p[0])])
      else if cmd == CMD_MOUSE_PRESS_TIMED then
        if |p| != 3 then Refuse(o) else Perform(o, [MousePress(p[0]), Wait(Be16(p[1], p[2])), MouseRelease(p[0])])
      else if cmd == CMD_KB_PRESS then
        if |p| != 1 then Refuse(o) else Perform(o, [KeyPress(p[0])])
      else if cmd == CMD_KB_RELEASE then
        if |p| != 1 then Refuse(o) else Perform(o, [KeyRelease(p[0])])
      else if cmd == CMD_KB_WRITE then
        if |p| != 1 then Refuse(o) else Perform(o, [KeyWrite(p[0])])
      else if cmd == CMD_KB_RELEASE_ALL then
        if |p| != 0 then Refuse(o) else Perform(o, [KeyReleaseAll])
      else if cmd == CMD_KB_PRINT then
        Perform(o, KeyWrites(p))
      else if cmd == CMD_KB_PRESS_TIMED then
        if |p| != 3 then Refuse(o) else Perform(o, [KeyPress(p[0]), Wait(Be16(p[1], p[2])), KeyRelease(p[0])])
      else
        SendAck(LogError(o), ACK_INVALID_CMD)
  }

  /**
   * What `processPacket` does is decided by the packet alone: from any two
   * device outputs it sends the same ack and appends the same HID calls.
   */
  lemma ProcessDependsOnlyOnPacket(o1: Out, o2: Out, packet: seq<byte>)
    ensures Process(o1, packet).acks[|o1.acks|] == Process(o2, packet).acks[|o2.acks|]
    ensures |Process(o1, packet).hid| - |o1.hid| == |Process(o2, packet).hid| - |o2.hid|
    ensures Process(o1, packet).hid[|o1.hid|..] == Process(o2, packet).hid[|o2.hid|..]
  {
  }

  // ---------------------------------------------------------------------
  // The receive state machine of `loop`.

  /**
   * `rx_state`, `rx_len`, and the bytes stored so far in `rx_buffer`
   * (`rx_buffer[0..rx_idx)`).
   */
  datatype Rx = Rx(state: byte, len: byte, data: seq<byte>)

  /** The whole device: receiver and outputs. */
  datatype Device = Device(rx: Rx, out: Out)

  /**
   * The receiver invariant: the state is one of the three cases; while a
   * packet is being read its length is 1..31 and no more than length + 1
   * bytes are stored, so the stored bytes fit `rx_buffer[MAX_PACKET_SIZE]`.
   */
  predicate RxValid(rx: Rx)
  {
    rx.state <= 2 &&
    (rx.state == 2 ==> 1 <= rx.len <= MAX_PACKET_SIZE - 1 && |rx.data| <= rx.len) &&
    (rx.state != 2 ==> rx.data == [])
  }

  /** One pass of the `while (Serial.available())` body in `loop`, on byte b. */
  function Step(d: Device, b: byte): (r: Device)
    ensures RxValid(d.rx) ==> RxValid(r.rx)
    ensures r.out.acks == d.out.acks || (|r.out.acks| == |d.out.acks| + 1 && r.out.acks[..|d.out.acks|] == d.out.acks)
  {
    var rx := d.rx;
    if rx.state == 0 then
      if b == SYNC_BYTE then d.(rx := Rx(1, rx.len, [])) else d
    else if rx.state == 1 then
      if b == 0 || b > MAX_PACKET_SIZE - 1 then
        Device(Rx(0, b, []), Refuse(d.out))
      else
        Device(Rx(2, b, []), d.out.(packets := Inc32(d.out.packets)))
    else if rx.state == 2 then
      var data := rx.data + [b];
      if |data| == rx.len + 1 then
        var packet := data[..rx.len];
        Device(Rx(0, rx.len, []), Complete(d.out, packet, data[rx.len]))
      else
        d.(rx := Rx(2, rx.len, data))
    else
      d
  }

  /**
   * A packet and its checksum byte have arrived: a matching checksum hands the
   * packet to `processPacket`, any other is logged and answered CRC_ERROR.
   */
  function Complete(o: Out, packet: seq<byte>, received: byte): (r: Out)
    ensures received == Crc8(packet) ==> r == Process(o, packet)
    ensures received != Crc8(packet) ==> r == SendAck(LogError(o), ACK_CRC_ERROR)
  {
    if received == Crc8(packet) then Process(o, packet)
    else SendAck(LogError(o), ACK_CRC_ERROR)
  }

  /** The bytes `bs` arriving one after another. */
  function Feed(d: Device, bs: seq<byte>): (r: Device)
    ensures RxValid(d.rx) ==> RxValid(r.rx)
    ensures |d.out.acks| <= |r.out.acks| <= |d.out.acks| + |bs|
    ensures r.out.acks[..|d.out.acks|] == d.out.acks
  {
    if |bs| == 0 then d else Step(Feed(d, bs[..|bs| - 1]), bs[|bs| - 1])
  }
}
