/**
 * The two ends of the protocol against each other: the device's checksum
 * table is the host's, every frame the host builds with at most 30
 * parameter bytes is received intact by the device's state machine and
 * handed to `processPacket` as opcode followed by parameters, and the
 * device's decoding of each command inverts the host's encoding.
 */
module EndToEnd {
  import opened Bytes
  import H = HostProtocol
  import F = FirmwareProtocol

  /** ardunio_code.c carries the same table as arduinoHID.py, entry for entry. */
  lemma TablesAgree()
    ensures H.CRC8_TABLE == F.CRC8_TABLE
  {
    assert H.CRC8_ROW_00 == F.CRC8_ROW_00;
    assert H.CRC8_ROW_01 == F.CRC8_ROW_01;
    assert H.CRC8_ROW_02 == F.CRC8_ROW_02;
    assert H.CRC8_ROW_03 == F.CRC8_ROW_03;
    assert H.CRC8_ROW_04 == F.CRC8_ROW_04;
    assert H.CRC8_ROW_05 == F.CRC8_ROW_05;
    assert H.CRC8_ROW_06 == F.CRC8_ROW_06;
    assert H.CRC8_ROW_07 == F.CRC8_ROW_07;
    assert H.CRC8_ROW_08 == F.CRC8_ROW_08;
    assert H.CRC8_ROW_09 == F.CRC8_ROW_09;
    assert H.CRC8_ROW_10 == F.CRC8_ROW_10;
    assert H.CRC8_ROW_11 == F.CRC8_ROW_11;
    assert H.CRC8_ROW_12 == F.CRC8_ROW_12;
    assert H.CRC8_ROW_13 == F.CRC8_ROW_13;
    assert H.CRC8_ROW_14 == F.CRC8_ROW_14;
    assert H.CRC8_ROW_15 == F.CRC8_ROW_15;
    assert H.CRC8_ROW_16 == F.CRC8_ROW_16;
    assert H.CRC8_ROW_17 == F.CRC8_ROW_17;
    assert H.CRC8_ROW_18 == F.CRC8_ROW_18;
    assert H.CRC8_ROW_19 == F.CRC8_ROW_19;
    assert H.CRC8_ROW_20 == F.CRC8_ROW_20;
    assert H.CRC8_ROW_21 == F.CRC8_ROW_21;
    assert H.CRC8_ROW_22 == F.CRC8_ROW_22;
    assert H.CRC8_ROW_23 == F.CRC8_ROW_23;
    assert H.CRC8_ROW_24 == F.CRC8_ROW_24;
    assert H.CRC8_ROW_25 == F.CRC8_ROW_25;
    assert H.CRC8_ROW_26 == F.CRC8_ROW_26;
    assert H.CRC8_ROW_27 == F.CRC8_ROW_27;
    assert H.CRC8_ROW_28 == F.CRC8_ROW_28;
    assert H.CRC8_ROW_29 == F.CRC8_ROW_29;
    assert H.CRC8_ROW_30 == F.CRC8_ROW_30;
    assert H.CRC8_ROW_31 == F.CRC8_ROW_31;
  }

  /** Host and device compute the same checksum of every byte string. */
  lemma {:induction false} Crc8Agree(data: seq<byte>)
    ensures H.Crc8(data) == F.Crc8(data)
    decreases |data|
  {
    if |data| > 0 {
      Crc8Agree(data[..|data| - 1]);
      TablesAgree();
    }
  }

  // ---------------------------------------------------------------------
  // The receiver over many bytes.

  /** Feeding a then b is feeding a + b. */
  lemma {:induction false} FeedAppend(d: F.Device, a: seq<byte>, b: seq<byte>)
    ensures F.Feed(d, a + b) == F.Feed(F.Feed(d, a), b)
    decreases |b|
  {
    if |b| == 0 {
      assert a + b == a;
    } else {
      assert (a + b)[..|a + b| - 1] == a + b[..|b| - 1];
      FeedAppend(d, a, b[..|b| - 1]);
    }
  }

  /** While a packet is being read, bytes short of the last one are only stored. */
  lemma {:induction false} FeedPayload(d: F.Device, bs: seq<byte>)
    requires d.rx.state == 2 && |d.rx.data| + |bs| <= d.rx.len
    ensures F.Feed(d, bs) == d.(rx := F.Rx(2, d.rx.len, d.rx.data + bs))
    decreases |bs|
  {
    if |bs| == 0 {
      assert d.rx.data + bs == d.rx.data;
    } else {
      FeedPayload(d, bs[..|bs| - 1]);
      assert d.rx.data + bs[..|bs| - 1] + [bs[|bs| - 1]] == d.rx.data + bs;
    }
  }

  /** Waiting for a sync byte, the receiver ignores every other byte. */
  lemma {:induction false} NoiseIgnored(d: F.Device, bs: seq<byte>)
    requires d.rx.state == 0
    requires forall i :: 0 <= i < |bs| ==> bs[i] != F.SYNC_BYTE
    ensures F.Feed(d, bs) == d
    decreases |bs|
  {
    if |bs| > 0 {
      NoiseIgnored(d, bs[..|bs| - 1]);
    }
  }

  /** A sync byte and an acceptable length byte start a packet and count it. */
  lemma Header(d: F.Device, n: byte)
    requires d.rx.state == 0 && 1 <= n <= F.MAX_PACKET_SIZE - 1
    ensures F.Feed(d, [F.SYNC_BYTE, n]) == F.Device(F.Rx(2, n, []), d.out.(packets := Inc32(d.out.packets)))
  {
    var synced := F.Feed(d, [F.SYNC_BYTE]);
    assert synced == F.Step(d, F.SYNC_BYTE) by {
      assert [F.SYNC_BYTE][..0] == [];
      assert F.Feed(d, []) == d;
    }
    assert [F.SYNC_BYTE, n][..1] == [F.SYNC_BYTE];
  }

  /**
   * The checksum byte completes the packet: the receiver goes back to waiting
   * for a sync byte and the packet and its checksum byte go to the check.
   */
  lemma Trailer(out: F.Out, data: seq<byte>, crc: byte)
    requires 1 <= |data| <= F.MAX_PACKET_SIZE - 1
    ensures F.Step(F.Device(F.Rx(2, |data|, data), out), crc) == F.Device(F.Rx(0, |data|, []), F.Complete(out, data, crc))
  {
    var stored := data + [crc];
    assert stored[..|data|] == data;
    assert stored[|data|] == crc;
  }

  /** The last byte of an input is one more step after the rest. */
  lemma FeedLast(d: F.Device, bs: seq<byte>, b: byte)
    ensures F.Feed(d, bs + [b]) == F.Step(F.Feed(d, bs), b)
  {
    assert (bs + [b])[..|bs|] == bs;
  }

  /** Sync byte, length byte n and n data bytes: the packet is counted and its data buffered. */
  lemma Buffered(d: F.Device, n: byte, data: seq<byte>)
    requires d.rx.state == 0 && 1 <= n <= F.MAX_PACKET_SIZE - 1 && |data| == n
    ensures F.Feed(d, [F.SYNC_BYTE, n] + data) == F.Device(F.Rx(2, n, data), d.out.(packets := Inc32(d.out.packets)))
  {
    var counted := F.Device(F.Rx(2, n, []), d.out.(packets := Inc32(d.out.packets)));
    Header(d, n);
    FeedPayload(counted, data);
    assert counted.rx.data + data == data;
    FeedAppend(d, [F.SYNC_BYTE, n], data);
  }

  /**
   * A packet on the wire while the device waits for a sync byte: the length
   * byte is counted, the data is buffered, and the checksum byte sends the
   * packet to the check, whatever that byte is.
   */
  lemma PacketReceived(d: F.Device, n: byte, data: seq<byte>, crc: byte)
    requires d.rx.state == 0 && 1 <= n <= F.MAX_PACKET_SIZE - 1 && |data| == n
    ensures F.Feed(d, [F.SYNC_BYTE, n] + data + [crc]) ==
            F.Device(F.Rx(0, n, []), F.Complete(d.out.(packets := Inc32(d.out.packets)), data, crc))
  {
    Buffered(d, n, data);
    FeedLast(d, [F.SYNC_BYTE, n] + data, crc);
    Trailer(d.out.(packets := Inc32(d.out.packets)), data, crc);
  }

  /** The host's frame is the sync byte, the length, the packet and the firmware's checksum of it. */
  lemma FrameLayout(cmd: byte, params: seq<byte>)
    requires 1 + |params| < 256
    ensures H.Frame(cmd, params) == [F.SYNC_BYTE, 1 + |params|] + ([cmd] + params) + [F.Crc8([cmd] + params)]
  {
    Crc8Agree([cmd] + params);
  }

  /**
   * The main theorem: a frame built by the host with at most 30 parameter
   * bytes, arriving while the device waits for a sync byte, is counted as a
   * packet and handed to `processPacket` as exactly opcode and parameters;
   * the receiver then waits for the next sync byte.
   */
  lemma FrameDelivered(d: F.Device, cmd: byte, params: seq<byte>)
    requires d.rx.state == 0 && |params| <= F.MAX_PACKET_SIZE - 2
    ensures F.Feed(d, H.Frame(cmd, params)) ==
            F.Device(F.Rx(0, 1 + |params|, []), F.Process(d.out.(packets := Inc32(d.out.packets)), [cmd] + params))
  {
    FrameLayout(cmd, params);
    PacketReceived(d, 1 + |params|, [cmd] + params, F.Crc8([cmd] + params));
  }

  /**
   * A length byte outside 1..31 after a sync byte is refused with
   * PARAM_ERROR before any data is read, and the receiver goes back to
   * waiting for a sync byte; the packet is not counted.
   */
  lemma BadLengthRefused(d: F.Device, n: byte)
    requires d.rx.state == 0 && (n == 0 || n > F.MAX_PACKET_SIZE - 1)
    ensures F.Feed(d, [F.SYNC_BYTE, n]) == F.Device(F.Rx(0, n, []), F.Refuse(d.out))
  {
    var synced := F.Feed(d, [F.SYNC_BYTE]);
    assert synced == F.Step(d, F.SYNC_BYTE) by {
      assert [F.SYNC_BYTE][..0] == [];
      assert F.Feed(d, []) == d;
    }
    assert [F.SYNC_BYTE, n][..1] == [F.SYNC_BYTE];
  }

  /**
   * A frame whose checksum byte is not the checksum of its packet is
   * answered CRC_ERROR and counted as an error; no HID action happens and
   * the packet is not processed.
   */
  lemma CorruptedFrameRejected(d: F.Device, n: byte, data: seq<byte>, bad: byte)
    requires d.rx.state == 0 && 1 <= n <= F.MAX_PACKET_SIZE - 1 && |data| == n
    requires bad != F.Crc8(data)
    ensures var r := F.Feed(d, [F.SYNC_BYTE, n] + data + [bad]);
      r.rx == F.Rx(0, n, []) &&
      r.out.acks == d.out.acks + [F.ACK_CRC_ERROR] && r.out.hid == d.out.hid &&
      r.out.errors == Inc32(d.out.errors) && r.out.packets == Inc32(d.out.packets) &&
      r.out.successes == d.out.successes
  {
    PacketReceived(d, n, data, bad);
  }

  // ---------------------------------------------------------------------
  // The command encodings, host side against device side.

  /** Both ends use the same protocol bytes. */
  lemma ConstantsAgree()
    ensures H.SYNC_BYTE == F.SYNC_BYTE
    ensures H.ACK_SUCCESS == F.ACK_SUCCESS && H.ACK_CRC_ERROR == F.ACK_CRC_ERROR
    ensures H.ACK_INVALID_CMD == F.ACK_INVALID_CMD && H.ACK_PARAM_ERROR == F.ACK_PARAM_ERROR
    ensures H.CMD_MOUSE_MOVE == F.CMD_MOUSE_MOVE && H.CMD_MOUSE_PRESS == F.CMD_MOUSE_PRESS
    ensures H.CMD_MOUSE_RELEASE == F.CMD_MOUSE_RELEASE && H.CMD_MOUSE_CLICK == F.CMD_MOUSE_CLICK
    ensures H.CMD_MOUSE_PRESS_TIMED == F.CMD_MOUSE_PRESS_TIMED
    ensures H.CMD_KB_PRESS == F.CMD_KB_PRESS && H.CMD_KB_RELEASE == F.CMD_KB_RELEASE
    ensures H.CMD_KB_WRITE == F.CMD_KB_WRITE && H.CMD_KB_RELEASE_ALL == F.CMD_KB_RELEASE_ALL
    ensures H.CMD_KB_PRINT == F.CMD_KB_PRINT && H.CMD_KB_PRESS_TIMED == F.CMD_KB_PRESS_TIMED
  {
  }

  /** `(int8_t)` undoes `struct.pack('b', v)`. */
  lemma SignedByteRoundTrip(v: int)
    requires -128 <= v < 128
    ensures F.AsInt8(H.SignedByte(v)) == v
  {
  }

  /** ... and `struct.pack('b', v)` undoes `(int8_t)`: every byte is some signed value's encoding. */
  lemma AsInt8RoundTrip(b: byte)
    ensures H.SignedByte(F.AsInt8(b)) == b
  {
  }

  /** `(hi << 8) | lo` undoes the big-endian split of `struct.pack('>H', v)`. */
  lemma Be16RoundTrip(v: int)
    requires 0 <= v < 0x1_0000
    ensures F.Be16(v / 256, v % 256) == v
  {
  }

  /** `mouse_move(x, y, wheel)` moves by the clamped deltas, signs intact. */
  lemma MouseMoveDelivered(o: F.Out, x: int, y: int, wheel: int)
    ensures F.Process(o, [H.CMD_MOUSE_MOVE] + H.MouseMoveParams(x, y, wheel)) ==
            F.Perform(o, [F.MouseMove(H.ClampDelta(x), H.ClampDelta(y), H.ClampDelta(wheel))])
  {
    var p := H.MouseMoveParams(x, y, wheel);
    assert ([H.CMD_MOUSE_MOVE] + p)[1..] == p;
    SignedByteRoundTrip(H.ClampDelta(x));
    SignedByteRoundTrip(H.ClampDelta(y));
    SignedByteRoundTrip(H.ClampDelta(wheel));
  }

  /**
   * A timed press with a code that fits its byte presses, waits the clamped
   * duration, and releases the same button or key.
   */
  lemma TimedDelivered(o: F.Out, code: byte, ms: int)
    ensures F.Process(o, [H.CMD_MOUSE_PRESS_TIMED] + H.TimedParams(code, ms)) ==
            F.Perform(o, [F.MousePress(code), F.Wait(H.ClampDuration(ms)), F.MouseRelease(code)])
    ensures F.Process(o, [H.CMD_KB_PRESS_TIMED] + H.TimedParams(code, ms)) ==
            F.Perform(o, [F.KeyPress(code), F.Wait(H.ClampDuration(ms)), F.KeyRelease(code)])
  {
    var p := H.TimedParams(code, ms);
    assert ([H.CMD_MOUSE_PRESS_TIMED] + p)[1..] == p;
    assert ([H.CMD_KB_PRESS_TIMED] + p)[1..] == p;
    assert F.Be16(p[1], p[2]) == H.ClampDuration(ms) by {
      Be16RoundTrip(H.ClampDuration(ms));
    }
  }

  /** Each single-byte command performs the one HID call its opcode names, with that byte. */
  lemma ByteCommandDelivered(o: F.Out, b: byte)
    ensures F.Process(o, [H.CMD_MOUSE_PRESS, b]) == F.Perform(o, [F.MousePress(b)])
    ensures F.Process(o, [H.CMD_MOUSE_RELEASE, b]) == F.Perform(o, [F.MouseRelease(b)])
    ensures F.Process(o, [H.CMD_MOUSE_CLICK, b]) == F.Perform(o, [F.MouseClick(b)])
    ensures F.Process(o, [H.CMD_KB_PRESS, b]) == F.Perform(o, [F.KeyPress(b)])
    ensures F.Process(o, [H.CMD_KB_RELEASE, b]) == F.Perform(o, [F.KeyRelease(b)])
    ensures F.Process(o, [H.CMD_KB_WRITE, b]) == F.Perform(o, [F.KeyWrite(b)])
  {
    assert [H.CMD_MOUSE_PRESS, b][1..] == [b];
    assert [H.CMD_MOUSE_RELEASE, b][1..] == [b];
    assert [H.CMD_MOUSE_CLICK, b][1..] == [b];
    assert [H.CMD_KB_PRESS, b][1..] == [b];
    assert [H.CMD_KB_RELEASE, b][1..] == [b];
    assert [H.CMD_KB_WRITE, b][1..] == [b];
  }

  /** `keyboard_release_all` releases every key. */
  lemma ReleaseAllDelivered(o: F.Out)
    ensures F.Process(o, [H.CMD_KB_RELEASE_ALL]) == F.Perform(o, [F.KeyReleaseAll])
  {
    assert [H.CMD_KB_RELEASE_ALL][1..] == [];
  }

  /** A KB_PRINT frame types its payload bytes one after another. */
  lemma PrintDelivered(o: F.Out, payload: seq<byte>)
    ensures F.Process(o, [H.CMD_KB_PRINT] + payload) == F.Perform(o, F.KeyWrites(payload))
  {
    assert ([H.CMD_KB_PRINT] + payload)[1..] == payload;
  }
}
