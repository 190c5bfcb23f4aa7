/**
 * The sketch ino_/ardunio_code.c as the imperative program it is: the
 * `Logger` object with its counters, `crc8` over the receive buffer, and the
 * globals `rx_buffer`, `rx_state`, `rx_len`, `rx_idx` updated by `loop` one
 * byte at a time. Each method is proved to transform the globals as the
 * corresponding function of FirmwareProtocol says.
 */
module Firmware {
  import opened Bytes
  import opened FirmwareProtocol

  /** The Logger's counters; the log text it prints is not modelled. */
  class Logger {
    var packetCounter: uint32
    var errorCounter: uint32
    var successCounter: uint32

    constructor ()
      ensures packetCounter == 0 && errorCounter == 0 && successCounter == 0
    {
      packetCounter := 0;
      errorCounter := 0;
      successCounter := 0;
    }

    /** `logPacketReceived`: count a packet whose length byte was accepted. */
    method LogPacketReceived()
      modifies this
      ensures packetCounter == Inc32(old(packetCounter))
      ensures errorCounter == old(errorCounter) && successCounter == old(successCounter)
    {
      packetCounter := Inc32(packetCounter);
    }

    /** `logError` (and the helpers that call it): count an error. */
    method LogError()
      modifies this
      ensures errorCounter == Inc32(old(errorCounter))
      ensures packetCounter == old(packetCounter) && successCounter == old(successCounter)
    {
      errorCounter := Inc32(errorCounter);
    }

    /** `logACK`: count a SUCCESS ack. */
    method LogAck(code: byte)
      modifies this
      ensures successCounter == if code == ACK_SUCCESS then Inc32(old(successCounter)) else old(successCounter)
      ensures packetCounter == old(packetCounter) && errorCounter == old(errorCounter)
    {
      if code == ACK_SUCCESS {
        successCounter := Inc32(successCounter);
      }
    }
  }

  /** `crc8(data, len)`: the table fold over the first len bytes of the buffer. */
  method ComputeCrc8(data: array<byte>, len: byte) returns (crc: byte)
    requires len <= data.Length
    ensures crc == Crc8(data[..len])
  {
    crc := 0x00;
    for i := 0 to len
      invariant crc == Crc8(data[..i])
    {
      assert data[..i + 1][..i] == data[..i];
      crc := CRC8_TABLE[Xor(crc, data[i])];
    }
  }

  /** The sketch's globals: the receiver, the serial output, the HID trace, the logger. */
  class Sketch {
    const rxBuffer: array<byte>
    var rxState: byte
    var rxLen: byte
    var rxIdx: byte
    var serialOut: seq<byte>
    var hid: seq<HidAction>
    const logger: Logger

    /**
     * The receiver invariant of RxValid in terms of the globals: `rx_idx`
     * stays at most `rx_len` <= 31 between bytes, so `rx_buffer[rx_idx++]`
     * is always in bounds.
     */
    predicate Valid()
      reads this
    {
      rxBuffer.Length == MAX_PACKET_SIZE &&
      rxState <= 2 &&
      (rxState == 2 ==> 1 <= rxLen <= MAX_PACKET_SIZE - 1 && rxIdx <= rxLen) &&
      (rxState != 2 ==> rxIdx == 0)
    }

    /** What the device has produced so far. */
    function Outputs(): Out
      reads this, logger
    {
      Out(serialOut, hid, logger.packetCounter, logger.errorCounter, logger.successCounter)
    }

    /** The globals as a value. */
    function Snapshot(): (d: Device)
      requires Valid()
      reads this, logger, rxBuffer
      ensures RxValid(d.rx)
    {
      Device(Rx(rxState, rxLen, rxBuffer[..rxIdx]), Outputs())
    }

    /** The state after reset: waiting for a sync byte, nothing produced. */
    constructor ()
      ensures Valid()
      ensures Snapshot() == Device(Rx(0, 0, []), Out([], [], 0, 0, 0))
    {
      rxBuffer := new byte[MAX_PACKET_SIZE];
      rxState := 0;
      rxLen := 0;
      rxIdx := 0;
      serialOut := [];
      hid := [];
      logger := new Logger();
    }

    /** `sendAck`: `Serial.write(code)` and `logACK(code)`. */
    method SendAck(code: byte)
      modifies this, logger
      ensures Outputs() == FirmwareProtocol.SendAck(old(Outputs()), code)
      ensures rxState == old(rxState) && rxLen == old(rxLen) && rxIdx == old(rxIdx)
    {
      serialOut := serialOut + [code];
      logger.LogAck(code);
    }

    /** A parameter error: log it and answer PARAM_ERROR. */
    method RefuseParams()
      modifies this, logger
      ensures Outputs() == Refuse(old(Outputs()))
      ensures rxState == old(rxState) && rxLen == old(rxLen) && rxIdx == old(rxIdx)
    {
      logger.LogError();
      SendAck(ACK_PARAM_ERROR);
    }

    /** Perform HID actions, then answer SUCCESS. */
    method Succeed(actions: seq<HidAction>)
      modifies this, logger
      ensures Outputs() == FirmwareProtocol.Perform(old(Outputs()), actions)
      ensures rxState == old(rxState) && rxLen == old(rxLen) && rxIdx == old(rxIdx)
    {
      hid := hid + actions;
      SendAck(ACK_SUCCESS);
    }

    /** The loop of the KB_PRINT case: `Keyboard.write(params[i])` for each parameter byte. */
    method TypeParams(data: array<byte>, paramLen: nat)
      requires 1 + paramLen <= data.Length
      modifies this
      ensures hid == old(hid) + KeyWrites(data[1..1 + paramLen])
      ensures serialOut == old(serialOut)
      ensures rxState == old(rxState) && rxLen == old(rxLen) && rxIdx == old(rxIdx)
    {
      for i := 0 to paramLen
        invariant hid == old(hid) + KeyWrites(data[1..1 + i])
        invariant serialOut == old(serialOut)
        invariant rxState == old(rxState) && rxLen == old(rxLen) && rxIdx == old(rxIdx)
      {
        assert data[1..1 + i + 1][..i] == data[1..1 + i];
        hid := hid + [KeyWrite(data[1 + i])];
      }
    }

    /** `processPacket(data, len)`. */
    method ProcessPacket(data: array<byte>, len: byte)
      requires len <= data.Length
      modifies this, logger
      ensures Outputs() == Process(old(Outputs()), data[..len])
      ensures rxState == old(rxState) && rxLen == old(rxLen) && rxIdx == old(rxIdx)
    {
      if len < 1 {
        RefuseParams();
        return;
      }
      ghost var packet := data[..len];
      var cmd := data[0];
      var paramLen := len - 1;
      assert packet[0] == cmd && |packet[1..]| == paramLen;
      if cmd == CMD_MOUSE_MOVE {
        if paramLen != 3 {
          RefuseParams();
          return;
        }
        assert packet[1..] == [data[1], data[2], data[3]];
        Succeed([MouseMove(AsInt8(data[1]), AsInt8(data[2]), AsInt8(data[3]))]);
      } else if cmd == CMD_MOUSE_PRESS {
        if paramLen != 1 {
          RefuseParams();
          return;
        }
        assert packet[1..] == [data[1]];
        Succeed([MousePress(data[1])]);
      } else if cmd == CMD_MOUSE_RELEASE {
        if paramLen != 1 {
          RefuseParams();
          return;
        }
        assert packet[1..] == [data[1]];
        Succeed([MouseRelease(data[1])]);
      } else if cmd == CMD_MOUSE_CLICK {
        if paramLen != 1 {
          RefuseParams();
          return;
        }
        assert packet[1..] == [data[1]];
        Succeed([MouseClick(data[1])]);
      } else if cmd == CMD_MOUSE_PRESS_TIMED {
        if paramLen != 3 {
          RefuseParams();
          return;
        }
        assert packet[1..] == [data[1], data[2], data[3]];
        var durationMs := Be16(data[2], data[3]);
        Succeed([MousePress(data[1]), Wait(durationMs), MouseRelease(data[1])]);
      } else if cmd == CMD_KB_PRESS {
        if paramLen != 1 {
          RefuseParams();
          return;
        }
        assert packet[1..] == [data[1]];
        Succeed([KeyPress(data[1])]);
      } else if cmd == CMD_KB_RELEASE {
        if paramLen != 1 {
          RefuseParams();
          return;
        }
        assert packet[1..] == [data[1]];
        Succeed([KeyRelease(data[1])]);
      } else if cmd == CMD_KB_WRITE {
        if paramLen != 1 {
          RefuseParams();
          return;
        }
        assert packet[1..] == [data[1]];
        Succeed([KeyWrite(data[1])]);
      } else if cmd == CMD_KB_RELEASE_ALL {
        if paramLen != 0 {
          RefuseParams();
          return;
        }
        Succeed([KeyReleaseAll]);
      } else if cmd == CMD_KB_PRINT {
        assert data[1..1 + paramLen] == packet[1..];
        TypeParams(data, paramLen);
        SendAck(ACK_SUCCESS);
      } else if cmd == CMD_KB_PRESS_TIMED {
        if paramLen != 3 {
          RefuseParams();
          return;
        }
        assert packet[1..] == [data[1], data[2], data[3]];
        var durationMs := Be16(data[2], data[3]);
        Succeed([KeyPress(data[1]), Wait(durationMs), KeyRelease(data[1])]);
      } else {
        logger.LogError();
        SendAck(ACK_INVALID_CMD);
      }
    }

    /** `case 1` of `loop`: the length byte. */
    method ReadLength(b: byte)
      requires Valid() && rxState == 1
      modifies this, logger
      ensures Valid()
      ensures Snapshot() == Step(old(Snapshot()), b)
    {
      rxLen := b;
      if rxLen == 0 || rxLen > MAX_PACKET_SIZE - 1 {
        RefuseParams();
        rxState := 0;
      } else {
        logger.LogPacketReceived();
        rxState := 2;
        rxIdx := 0;
      }
    }

    /** `case 2` of `loop`: a data or checksum byte; the last one completes the packet. */
    method ReadData(b: byte)
      requires Valid() && rxState == 2
      modifies this, logger, rxBuffer
      ensures Valid()
      ensures Snapshot() == Step(old(Snapshot()), b)
    {
      rxBuffer[rxIdx] := b;
      rxIdx := rxIdx + 1;
      assert rxBuffer[..rxIdx] == old(rxBuffer[..rxIdx]) + [b];
      if rxIdx == rxLen + 1 {
        var receivedCrc := rxBuffer[rxLen];
        var calculatedCrc := ComputeCrc8(rxBuffer, rxLen);
        assert rxBuffer[..rxIdx][..rxLen] == rxBuffer[..rxLen];
        if receivedCrc == calculatedCrc {
          ProcessPacket(rxBuffer, rxLen);
        } else {
          logger.LogError();
          SendAck(ACK_CRC_ERROR);
        }
        rxState := 0;
        rxIdx := 0;
      }
    }

    /** One pass of the body of `while (Serial.available() > 0)` in `loop`, on byte b. */
    method ReceiveByte(b: byte)
      requires Valid()
      modifies this, logger, rxBuffer
      ensures Valid()
      ensures Snapshot() == Step(old(Snapshot()), b)
    {
      if rxState == 0 {
        if b == SYNC_BYTE {
          rxState := 1;
          rxIdx := 0;
        }
      } else if rxState == 1 {
        ReadLength(b);
      } else if rxState == 2 {
        ReadData(b);
      }
    }

    /** `loop`'s `while (Serial.available() > 0)`: the bytes of `input`, in order. */
    method Loop(input: seq<byte>)
      requires Valid()
      modifies this, logger, rxBuffer
      ensures Valid()
      ensures Snapshot() == Feed(old(Snapshot()), input)
    {
      for i := 0 to |input|
        invariant Valid()
        invariant Snapshot() == Feed(old(Snapshot()), input[..i])
      {
        assert input[..i + 1][..i] == input[..i];
        ReceiveByte(input[i]);
      }
      assert input[..|input|] == input;
    }
  }
}
