/**
 * The driver object `ArduinoHID` (module/arduinoHID.py): a serial port and a
 * retry count, and one method per command. Every method is proved to do to
 * the port exactly what the transport specification says the corresponding
 * request, or sequence of requests, does.
 */
module HostDriver {
  import opened Bytes
  import opened HostProtocol
  import opened HostSerial
  import opened HostTransport

  class ArduinoHid {
    const ser: SerialPort
    const retries: int

    /** A driver over an already opened port. */
    constructor (port: SerialPort, retries: int)
      ensures ser == port && this.retries == retries
    {
      ser := port;
      this.retries := retries;
    }

    /** `_send_packet`: build the frame, then write it and read one ack per attempt. */
    method SendPacket(cmd: byte, params: seq<byte>) returns (o: Outcome)
      modifies ser
      ensures Run(o, ser.State()) == Perform(retries, old(ser.State()), Send(cmd, params))
    {
      var data := [cmd] + params;
      if |data| > 255 {
        return Raised(ValueOutOfRange(|data|));
      }
      var crc := ComputeCrc8(data);
      var packet := [SYNC_BYTE, |data|] + data + [crc];
      assert packet == Frame(cmd, params);
      var attempt := 0;
      while attempt < retries
        invariant 0 <= attempt
        invariant Exchange(packet, cmd, retries, attempt, ser.State()) ==
                  Exchange(packet, cmd, retries, 0, old(ser.State()))
        decreases retries - attempt
      {
        var ok := ser.Write(packet);
        if !ok {
          return Raised(SerialError);
        }
        var ev := ser.Read();
        match ev {
          case Timeout =>
            if attempt < retries - 1 {
              attempt := attempt + 1;
              continue;
            }
            return Raised(NoAck);
          case Fault =>
            return Raised(SerialError);
          case Got(code) =>
            if code == ACK_SUCCESS {
              return Returned(true);
            } else if code == ACK_CRC_ERROR {
              if attempt < retries - 1 {
                attempt := attempt + 1;
                continue;
              }
              return Raised(CrcError);
            } else if code == ACK_INVALID_CMD {
              return Raised(InvalidCommand(cmd));
            } else if code == ACK_PARAM_ERROR {
              return Raised(ParamError(cmd));
            } else {
              return Raised(UnknownAck(code));
            }
        }
      }
      return Returned(false);
    }

    /** One request: raise its argument error, or send it. */
    method Submit(req: Request) returns (o: Outcome)
      modifies ser
      ensures Run(o, ser.State()) == Perform(retries, old(ser.State()), req)
    {
      match req {
        case Reject(e) =>
          o := Raised(e);
        case Send(cmd, params) =>
          o := SendPacket(cmd, params);
      }
    }

    // ----------------------------------------------------------------- mouse

    /** `mouse_move`. */
    method MouseMove(x: int, y: int, wheel: int := 0) returns (o: Outcome)
      modifies ser
      ensures Run(o, ser.State()) == Perform(retries, old(ser.State()), MouseMoveRequest(x, y, wheel))
    {
      o := SendPacket(CMD_MOUSE_MOVE, MouseMoveParams(x, y, wheel));
    }

    /** `mouse_press`. */
    method MousePress(button: int := MOUSE_LEFT) returns (o: Outcome)
      modifies ser
      ensures Run(o, ser.State()) == Perform(retries, old(ser.State()), ByteRequest(CMD_MOUSE_PRESS, button))
    {
      o := Submit(ByteRequest(CMD_MOUSE_PRESS, button));
    }

    /** `mouse_release`. */
    method MouseRelease(button: int := MOUSE_LEFT) returns (o: Outcome)
      modifies ser
      ensures Run(o, ser.State()) == Perform(retries, old(ser.State()), ByteRequest(CMD_MOUSE_RELEASE, button))
    {
      o := Submit(ByteRequest(CMD_MOUSE_RELEASE, button));
    }

    /** `mouse_click`. */
    method MouseClick(button: int := MOUSE_LEFT) returns (o: Outcome)
      modifies ser
      ensures Run(o, ser.State()) == Perform(retries, old(ser.State()), ByteRequest(CMD_MOUSE_CLICK, button))
    {
      o := Submit(ByteRequest(CMD_MOUSE_CLICK, button));
    }

    /**
     * `mouse_press_for`: press, sleep `duration` seconds, and release only if
     * the press returned true; a negative duration raises before the release.
     */
    method MousePressFor(button: int := MOUSE_LEFT, duration: real := 0.2) returns (o: Outcome)
      modifies ser
      ensures Run(o, ser.State()) ==
              HoldThenRelease(retries, old(ser.State()), [ByteRequest(CMD_MOUSE_PRESS, button)], duration,
                              [ByteRequest(CMD_MOUSE_RELEASE, button)])
      ensures duration >= 0.0 ==>
                Run(o, ser.State()) ==
                RunAll(retries, old(ser.State()), [ByteRequest(CMD_MOUSE_PRESS, button), ByteRequest(CMD_MOUSE_RELEASE, button)])
    {
      RunAllSingle(retries, ser.State(), ByteRequest(CMD_MOUSE_PRESS, button));
      o := MousePress(button);
      if o != Returned(true) {
        return;
      }
      if duration < 0.0 {
        o := Raised(NegativeSleep);
        return;
      }
      RunAllSingle(retries, ser.State(), ByteRequest(CMD_MOUSE_RELEASE, button));
      o := MouseRelease(button);
    }

    /** `mouse_press_timed`. */
    method MousePressTimed(button: int := MOUSE_LEFT, durationMs: int := 200) returns (o: Outcome)
      modifies ser
      ensures Run(o, ser.State()) ==
              Perform(retries, old(ser.State()), TimedRequest(CMD_MOUSE_PRESS_TIMED, button, durationMs))
    {
      o := Submit(TimedRequest(CMD_MOUSE_PRESS_TIMED, button, durationMs));
    }

    // -------------------------------------------------------------- keyboard

    /** `keyboard_press`. */
    method KeyboardPress(key: int) returns (o: Outcome)
      modifies ser
      ensures Run(o, ser.State()) == Perform(retries, old(ser.State()), ByteRequest(CMD_KB_PRESS, key))
    {
      o := Submit(ByteRequest(CMD_KB_PRESS, key));
    }

    /** `keyboard_release`. */
    method KeyboardRelease(key: int) returns (o: Outcome)
      modifies ser
      ensures Run(o, ser.State()) == Perform(retries, old(ser.State()), ByteRequest(CMD_KB_RELEASE, key))
    {
      o := Submit(ByteRequest(CMD_KB_RELEASE, key));
    }

    /** `keyboard_write`. */
    method KeyboardWrite(key: int) returns (o: Outcome)
      modifies ser
      ensures Run(o, ser.State()) == Perform(retries, old(ser.State()), ByteRequest(CMD_KB_WRITE, key))
    {
      o := Submit(ByteRequest(CMD_KB_WRITE, key));
    }

    /** `keyboard_release_all`: a frame with no parameters. */
    method KeyboardReleaseAll() returns (o: Outcome)
      modifies ser
      ensures Run(o, ser.State()) == Perform(retries, old(ser.State()), Send(CMD_KB_RELEASE_ALL, []))
    {
      o := SendPacket(CMD_KB_RELEASE_ALL, []);
    }

    /**
     * `keyboard_press_for`: press, sleep `duration` seconds, and release only
     * if the press returned true; a negative duration raises before the release.
     */
    method KeyboardPressFor(key: int, duration: real) returns (o: Outcome)
      modifies ser
      ensures Run(o, ser.State()) ==
              HoldThenRelease(retries, old(ser.State()), [ByteRequest(CMD_KB_PRESS, key)], duration,
                              [ByteRequest(CMD_KB_RELEASE, key)])
      ensures duration >= 0.0 ==>
                Run(o, ser.State()) ==
                RunAll(retries, old(ser.State()), [ByteRequest(CMD_KB_PRESS, key), ByteRequest(CMD_KB_RELEASE, key)])
    {
      RunAllSingle(retries, ser.State(), ByteRequest(CMD_KB_PRESS, key));
      o := KeyboardPress(key);
      if o != Returned(true) {
        return;
      }
      if duration < 0.0 {
        o := Raised(NegativeSleep);
        return;
      }
      RunAllSingle(retries, ser.State(), ByteRequest(CMD_KB_RELEASE, key));
      o := KeyboardRelease(key);
    }

    /** `keyboard_press_timed`. */
    method KeyboardPressTimed(key: int, durationMs: int) returns (o: Outcome)
      modifies ser
      ensures Run(o, ser.State()) ==
              Perform(retries, old(ser.State()), TimedRequest(CMD_KB_PRESS_TIMED, key, durationMs))
    {
      o := Submit(TimedRequest(CMD_KB_PRESS_TIMED, key, durationMs));
    }

    /**
     * `keyboard_print`: text longer than 30 characters goes out in 30-character
     * slices, one frame each, stopping at the first that does not return true;
     * shorter text goes out as one frame.
     */
    method KeyboardPrint(text: string) returns (o: Outcome)
      modifies ser
      ensures Run(o, ser.State()) == RunAll(retries, old(ser.State()), PrintRequests(text))
    {
      if |text| > PRINT_CHUNK {
        assert text[0..] == text;
        var i := 0;
        while i < |text|
          invariant 0 <= i <= |text|
          invariant RunAll(retries, ser.State(), PrintFrames(Chunks(text[i..]))) ==
                    RunAll(retries, old(ser.State()), PrintRequests(text))
        {
          var end := if i + PRINT_CHUNK < |text| then i + PRINT_CHUNK else |text|;
          PrintStep(text, i);
          RunAllCons(retries, ser.State(), Send(CMD_KB_PRINT, AsciiBytes(text[i..end])), PrintFrames(Chunks(text[end..])));
          o := SendPacket(CMD_KB_PRINT, AsciiBytes(text[i..end]));
          if o != Returned(true) {
            return;
          }
          i := end;
        }
        o := Returned(true);
      } else {
        RunAllCons(retries, ser.State(), Send(CMD_KB_PRINT, AsciiBytes(text)), []);
        assert PrintRequests(text) == [Send(CMD_KB_PRINT, AsciiBytes(text))] + [];
        o := SendPacket(CMD_KB_PRINT, AsciiBytes(text));
      }
    }

    /** `keyboard_type`: one `keyboard_write(ord(c))` per character, stopping at the first failure. */
    method KeyboardType(text: string) returns (o: Outcome)
      modifies ser
      ensures Run(o, ser.State()) == RunAll(retries, old(ser.State()), TypeRequests(text))
    {
      ghost var reqs := TypeRequests(text);
      for i := 0 to |text|
        invariant RunAll(retries, ser.State(), reqs[i..]) == RunAll(retries, old(ser.State()), reqs)
      {
        RunAllFrom(retries, ser.State(), reqs, i);
        o := KeyboardWrite(text[i] as int);
        if o != Returned(true) {
          return;
        }
      }
      o := Returned(true);
    }

    /** The first loop of `hotkey`: press each key in order, stopping at the first failure. */
    method PressKeys(keys: seq<int>) returns (o: Outcome)
      modifies ser
      ensures Run(o, ser.State()) == RunAll(retries, old(ser.State()), KeyRequests(CMD_KB_PRESS, keys))
    {
      ghost var presses := KeyRequests(CMD_KB_PRESS, keys);
      for i := 0 to |keys|
        invariant RunAll(retries, ser.State(), presses[i..]) == RunAll(retries, old(ser.State()), presses)
      {
        RunAllFrom(retries, ser.State(), presses, i);
        o := KeyboardPress(keys[i]);
        if o != Returned(true) {
          return;
        }
      }
      assert presses[|keys|..] == [];
      o := Returned(true);
    }

    /** The second loop of `hotkey`: release the keys in reverse order, stopping at the first failure. */
    method ReleaseKeys(keys: seq<int>) returns (o: Outcome)
      modifies ser
      ensures Run(o, ser.State()) == RunAll(retries, old(ser.State()), KeyRequests(CMD_KB_RELEASE, Reverse(keys)))
    {
      ghost var releases := KeyRequests(CMD_KB_RELEASE, Reverse(keys));
      var n := |keys|;
      for j := 0 to n
        invariant RunAll(retries, ser.State(), releases[j..]) == RunAll(retries, old(ser.State()), releases)
      {
        RunAllFrom(retries, ser.State(), releases, j);
        o := KeyboardRelease(keys[n - 1 - j]);
        if o != Returned(true) {
          return;
        }
      }
      assert releases[n..] == [];
      o := Returned(true);
    }

    /**
     * `hotkey`: press the keys in order, sleep `hold_time` seconds, then
     * release them in reverse order; the first failure ends the call, with no
     * release for keys already pressed, and so does a negative `hold_time`.
     */
    method Hotkey(keys: seq<int>, holdTime: real := 0.05) returns (o: Outcome)
      modifies ser
      ensures Run(o, ser.State()) ==
              HoldThenRelease(retries, old(ser.State()), KeyRequests(CMD_KB_PRESS, keys), holdTime,
                              KeyRequests(CMD_KB_RELEASE, Reverse(keys)))
      ensures holdTime >= 0.0 ==> Run(o, ser.State()) == RunAll(retries, old(ser.State()), HotkeyRequests(keys))
    {
      o := PressKeys(keys);
      if o != Returned(true) {
        return;
      }
      if holdTime < 0.0 {
        o := Raised(NegativeSleep);
        return;
      }
      o := ReleaseKeys(keys);
    }

    /** `ctrl_c`. */
    method CtrlC() returns (o: Outcome)
      modifies ser
      ensures Run(o, ser.State()) == RunAll(retries, old(ser.State()), HotkeyRequests([KEY_LEFT_CTRL, 'c' as int]))
    {
      o := Hotkey([KEY_LEFT_CTRL, 'c' as int]);
    }

    /** `ctrl_v`. */
    method CtrlV() returns (o: Outcome)
      modifies ser
      ensures Run(o, ser.State()) == RunAll(retries, old(ser.State()), HotkeyRequests([KEY_LEFT_CTRL, 'v' as int]))
    {
      o := Hotkey([KEY_LEFT_CTRL, 'v' as int]);
    }

    /** `ctrl_x`. */
    method CtrlX() returns (o: Outcome)
      modifies ser
      ensures Run(o, ser.State()) == RunAll(retries, old(ser.State()), HotkeyRequests([KEY_LEFT_CTRL, 'x' as int]))
    {
      o := Hotkey([KEY_LEFT_CTRL, 'x' as int]);
    }

    /** `ctrl_z`. */
    method CtrlZ() returns (o: Outcome)
      modifies ser
      ensures Run(o, ser.State()) == RunAll(retries, old(ser.State()), HotkeyRequests([KEY_LEFT_CTRL, 'z' as int]))
    {
      o := Hotkey([KEY_LEFT_CTRL, 'z' as int]);
    }

    /** `ctrl_a`. */
    method CtrlA() returns (o: Outcome)
      modifies ser
      ensures Run(o, ser.State()) == RunAll(retries, old(ser.State()), HotkeyRequests([KEY_LEFT_CTRL, 'a' as int]))
    {
      o := Hotkey([KEY_LEFT_CTRL, 'a' as int]);
    }

    /** `close`: close the port if it is open. */
    method Close()
      modifies ser
      ensures ser.State() == old(ser.State()).(open := false)
    {
      if ser.isOpen {
        ser.Close();
      }
    }
  }
}
