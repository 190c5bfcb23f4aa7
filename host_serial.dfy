/**
 * The serial port as the driver sees it (a pyserial `Serial` object): an
 * abstract channel that is open or closed, answers reads from a scripted
 * sequence of events, and logs every buffer written to it. A read past the
 * end of the script is a timeout (`read(1)` returning no bytes); a read or
 * write on a closed port raises, which the script records as a fault.
 */
module HostSerial {
  import opened Bytes

  /** The result of one `read(1)`: no byte before the timeout, one byte, or a SerialException. */
  datatype ReadEvent = Timeout | Got(b: byte) | Fault

  /** The observable state of the port: open or not, the reads still to come, the writes so far. */
  datatype Link = Link(open: bool, incoming: seq<ReadEvent>, written: seq<seq<byte>>)

  /** The event the next read returns. */
  function NextEvent(l: Link): (ev: ReadEvent)
    ensures !l.open ==> ev == Fault
    ensures l.open && |l.incoming| == 0 ==> ev == Timeout
    ensures l.open && |l.incoming| > 0 ==> ev == l.incoming[0]
  {
    if !l.open then Fault
    else if |l.incoming| == 0 then Timeout
    else l.incoming[0]
  }

  /** The port after one read: a scripted event is consumed; a timeout or a fault consumes nothing. */
  function AfterRead(l: Link): (r: Link)
    ensures r.open == l.open && r.written == l.written
    ensures l.open && |l.incoming| > 0 ==> r.incoming == l.incoming[1..]
    ensures !(l.open && |l.incoming| > 0) ==> r.incoming == l.incoming
  {
    if l.open && |l.incoming| > 0 then l.(incoming := l.incoming[1..]) else l
  }

  /** The port after a write: an open port logs the buffer, a closed one refuses it. */
  function AfterWrite(l: Link, data: seq<byte>): (r: Link)
    ensures r.open == l.open && r.incoming == l.incoming
    ensures l.open ==> r.written == l.written + [data]
    ensures !l.open ==> r.written == l.written
  {
    if l.open then l.(written := l.written + [data]) else l
  }

  class SerialPort {
    var isOpen: bool
    var incoming: seq<ReadEvent>
    var written: seq<seq<byte>>

    /** The state of the port as a value. */
    function State(): Link
      reads this
    {
      Link(isOpen, incoming, written)
    }

    /** An open port whose reads will return `script`, with nothing written yet. */
    constructor (script: seq<ReadEvent>)
      ensures State() == Link(true, script, [])
    {
      isOpen := true;
      incoming := script;
      written := [];
    }

    /** `write(data)`; `ok` is false where pyserial raises because the port is closed. */
    method Write(data: seq<byte>) returns (ok: bool)
      modifies this
      ensures ok == old(State()).open
      ensures State() == AfterWrite(old(State()), data)
    {
      ok := isOpen;
      if isOpen {
        written := written + [data];
      }
    }

    /** `read(1)`. */
    method Read() returns (ev: ReadEvent)
      modifies this
      ensures ev == NextEvent(old(State()))
      ensures State() == AfterRead(old(State()))
    {
      if !isOpen {
        ev := Fault;
      } else if |incoming| == 0 {
        ev := Timeout;
      } else {
        ev := incoming[0];
        incoming := incoming[1..];
      }
    }

    /** `close()`. */
    method Close()
      modifies this
      ensures State() == old(State()).(open := false)
    {
      isOpen := false;
    }
  }
}
