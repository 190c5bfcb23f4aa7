/**
 * What one `_send_packet` call does to the port, and what a sequence of
 * calls that stops at the first failure does: the specification the driver
 * class is proved against. `Exchange` is the send/ack/retry loop, `Perform`
 * one request, `RunAll` several requests in order.
 */
module HostTransport {
  import opened Bytes
  import opened HostProtocol
  import opened HostSerial

  /** How a driver method ends: it returns a boolean or raises. */
  datatype Outcome = Returned(ok: bool) | Raised(error: HidError)

  /** An outcome together with the port it leaves behind. */
  datatype Run = Run(outcome: Outcome, link: Link)

  /** The replies after which `_send_packet` tries again: no ack, or CRC_ERROR. */
  predicate Retryable(ev: ReadEvent)
  {
    ev == Timeout || ev == Got(ACK_CRC_ERROR)
  }

  /** The exception raised when the last attempt gets a retryable reply. */
  function GiveUp(ev: ReadEvent): (e: HidError)
    requires Retryable(ev)
    ensures ev == Timeout <==> e == NoAck
    ensures ev == Got(ACK_CRC_ERROR) <==> e == CrcError
  {
    if ev == Timeout then NoAck else CrcError
  }

  /** The outcome a reply settles at once. */
  function Verdict(ev: ReadEvent, cmd: byte): (o: Outcome)
    requires !Retryable(ev)
    ensures o == Returned(true) <==> ev == Got(ACK_SUCCESS)
    ensures o == Raised(InvalidCommand(cmd)) <==> ev == Got(ACK_INVALID_CMD)
    ensures o == Raised(ParamError(cmd)) <==> ev == Got(ACK_PARAM_ERROR)
    ensures o == Raised(SerialError) <==> ev == Fault
    ensures ev.Got? && ev.b !in {ACK_SUCCESS, ACK_CRC_ERROR, ACK_INVALID_CMD, ACK_PARAM_ERROR} <==>
              o.Raised? && o.error.UnknownAck?
  {
    match ev
    case Got(code) =>
      if code == ACK_SUCCESS then Returned(true)
      else if code == ACK_INVALID_CMD then Raised(InvalidCommand(cmd))
      else if code == ACK_PARAM_ERROR then Raised(ParamError(cmd))
      else Raised(UnknownAck(code))
    case Fault => Raised(SerialError)
  }

  /**
   * The loop of `_send_packet` from attempt number `attempt` on: write the
   * packet, read one ack byte, and retry a retryable reply while attempts
   * remain. A write to a closed port raises a serial error.
   */
  function Exchange(packet: seq<byte>, cmd: byte, retries: int, attempt: nat, l: Link): (r: Run)
    ensures r.outcome == Returned(false) <==> attempt >= retries
    ensures |r.link.written| >= |l.written|
    ensures r.outcome == Returned(true) ==> l.open && |r.link.written| > |l.written|
    decreases if attempt < retries then retries - attempt else 0
  {
    if attempt >= retries then Run(Returned(false), l)
    else if !l.open then Run(Raised(SerialError), l)
    else
      var sent := AfterWrite(l, packet);
      var ev := NextEvent(sent);
      var l' := AfterRead(sent);
      if Retryable(ev) then
        if attempt < retries - 1 then Exchange(packet, cmd, retries, attempt + 1, l')
        else Run(Raised(GiveUp(ev)), l')
      else Run(Verdict(ev, cmd), l')
  }

  /**
   * One request: an argument error raises before anything is written, a
   * frame whose length byte would overflow raises in `bytes([...])`, and
   * anything else is exchanged.
   */
  function Perform(retries: int, l: Link, req: Request): (r: Run)
    ensures !(req.Send? && 1 + |req.params| < 256) ==> r.outcome.Raised? && r.link == l
    ensures r.outcome == Returned(false) <==> req.Send? && 1 + |req.params| < 256 && retries <= 0
    ensures |r.link.written| >= |l.written|
    ensures r.outcome == Returned(true) ==> l.open && |r.link.written| > |l.written|
  {
    match req
    case Reject(e) => Run(Raised(e), l)
    case Send(cmd, params) =>
      if 1 + |params| > 255 then Run(Raised(ValueOutOfRange(1 + |params|)), l)
      else Exchange(Frame(cmd, params), cmd, retries, 0, l)
  }

  /** Requests in order, stopping at the first that does not return true. */
  function RunAll(retries: int, l: Link, reqs: seq<Request>): (r: Run)
    ensures |r.link.written| >= |l.written|
    ensures r.outcome == Returned(true) ==> |r.link.written| >= |l.written| + |reqs|
    ensures r.outcome == Returned(false) ==> |reqs| > 0 && retries <= 0
    decreases |reqs|
  {
    if |reqs| == 0 then Run(Returned(true), l)
    else
      var r := Perform(retries, l, reqs[0]);
      if r.outcome == Returned(true) then
        RunAll(retries, r.link, reqs[1..])
      else r
  }

  // ---------------------------------------------------------------------
  // The reply script, read position by position.

  /** The reply the i-th read gets: the i-th scripted event, or a timeout past the script. */
  function EventAt(incoming: seq<ReadEvent>, i: nat): ReadEvent
  {
    if i < |incoming| then incoming[i] else Timeout
  }

  /** The script after n reads. */
  function Drop(incoming: seq<ReadEvent>, n: nat): seq<ReadEvent>
  {
    if n <= |incoming| then incoming[n..] else []
  }

  /** n copies of the packet. */
  function Repeat(packet: seq<byte>, n: nat): (r: seq<seq<byte>>)
    ensures |r| == n
    ensures forall i :: 0 <= i < n ==> r[i] == packet
  {
    if n == 0 then [] else Repeat(packet, n - 1) + [packet]
  }

  /**
   * From attempt `attempt` on, when the replies before position k are all
   * retryable and the one at k is not, reply k decides the outcome and the
   * frame has been written k + 1 times.
   */
  lemma {:induction false} ExchangeSettlesFrom(packet: seq<byte>, cmd: byte, retries: int, attempt: nat, l: Link, k: nat)
    requires l.open && attempt + k < retries
    requires forall j :: 0 <= j < k ==> Retryable(EventAt(l.incoming, j))
    requires !Retryable(EventAt(l.incoming, k))
    ensures Exchange(packet, cmd, retries, attempt, l) ==
            Run(Verdict(EventAt(l.incoming, k), cmd),
                Link(true, Drop(l.incoming, k + 1), l.written + Repeat(packet, k + 1)))
    decreases k
  {
    var sent := AfterWrite(l, packet);
    var l' := AfterRead(sent);
    assert l.incoming == Drop(l.incoming, 0);
    if k > 0 {
      assert Retryable(EventAt(l.incoming, 0));
      forall j | 0 <= j < k - 1
        ensures Retryable(EventAt(l'.incoming, j))
      {
        assert EventAt(l'.incoming, j) == EventAt(l.incoming, j + 1);
      }
      assert EventAt(l'.incoming, k - 1) == EventAt(l.incoming, k);
      ExchangeSettlesFrom(packet, cmd, retries, attempt + 1, l', k - 1);
      assert Drop(l'.incoming, k) == Drop(l.incoming, k + 1);
      assert l'.written + Repeat(packet, k) == l.written + Repeat(packet, k + 1);
    }
  }

  /**
   * With every reply retryable, the last attempt gives up: NoAck after a
   * missing ack, CrcError after CRC_ERROR, with the frame written once per attempt.
   */
  lemma {:induction false} ExchangeGivesUpFrom(packet: seq<byte>, cmd: byte, retries: int, attempt: nat, l: Link)
    requires l.open && attempt < retries
    requires forall j :: 0 <= j < retries - attempt ==> Retryable(EventAt(l.incoming, j))
    ensures Exchange(packet, cmd, retries, attempt, l) ==
            Run(Raised(GiveUp(EventAt(l.incoming, retries - attempt - 1))),
                Link(true, Drop(l.incoming, retries - attempt), l.written + Repeat(packet, retries - attempt)))
    decreases retries - attempt
  {
    var sent := AfterWrite(l, packet);
    var l' := AfterRead(sent);
    assert l.incoming == Drop(l.incoming, 0);
    assert Retryable(EventAt(l.incoming, 0));
    if attempt < retries - 1 {
      forall j | 0 <= j < retries - (attempt + 1)
        ensures Retryable(EventAt(l'.incoming, j))
      {
        assert EventAt(l'.incoming, j) == EventAt(l.incoming, j + 1);
      }
      ExchangeGivesUpFrom(packet, cmd, retries, attempt + 1, l');
      var n := retries - attempt;
      assert EventAt(l'.incoming, n - 2) == EventAt(l.incoming, n - 1);
      assert Drop(l'.incoming, n - 1) == Drop(l.incoming, n);
      assert l'.written + Repeat(packet, n - 1) == l.written + Repeat(packet, n);
    }
  }

  /**
   * `_send_packet` on an open port, completely: the first reply that is not
   * retryable, within the first `retries` attempts, decides the outcome;
   * otherwise the last attempt gives up. Each attempt writes the frame once
   * and consumes one reply.
   */
  lemma ExchangeOutcome(packet: seq<byte>, cmd: byte, retries: int, l: Link)
    requires l.open
    ensures retries <= 0 ==> Exchange(packet, cmd, retries, 0, l) == Run(Returned(false), l)
    ensures forall k: nat ::
              (k < retries && (forall j :: 0 <= j < k ==> Retryable(EventAt(l.incoming, j))) &&
               !Retryable(EventAt(l.incoming, k))) ==>
              Exchange(packet, cmd, retries, 0, l) ==
              Run(Verdict(EventAt(l.incoming, k), cmd),
                  Link(true, Drop(l.incoming, k + 1), l.written + Repeat(packet, k + 1)))
    ensures 0 < retries && (forall j :: 0 <= j < retries ==> Retryable(EventAt(l.incoming, j))) ==>
              Exchange(packet, cmd, retries, 0, l) ==
              Run(Raised(GiveUp(EventAt(l.incoming, retries - 1))),
                  Link(true, Drop(l.incoming, retries), l.written + Repeat(packet, retries)))
  {
    forall k: nat | k < retries && (forall j :: 0 <= j < k ==> Retryable(EventAt(l.incoming, j))) &&
        !Retryable(EventAt(l.incoming, k))
      ensures Exchange(packet, cmd, retries, 0, l) ==
              Run(Verdict(EventAt(l.incoming, k), cmd),
                  Link(true, Drop(l.incoming, k + 1), l.written + Repeat(packet, k + 1)))
    {
      ExchangeSettlesFrom(packet, cmd, retries, 0, l, k);
    }
    if 0 < retries && (forall j :: 0 <= j < retries ==> Retryable(EventAt(l.incoming, j))) {
      ExchangeGivesUpFrom(packet, cmd, retries, 0, l);
    }
  }

  /**
   * Whatever the replies, `_send_packet` writes nothing but its frame, at
   * most `retries` times, and never touches the port's open flag.
   */
  lemma {:induction false} ExchangeWritesBounded(packet: seq<byte>, cmd: byte, retries: int, attempt: nat, l: Link)
    ensures var r := Exchange(packet, cmd, retries, attempt, l);
      r.link.open == l.open &&
      |l.written| <= |r.link.written| <= |l.written| + (if attempt < retries then retries - attempt else 0) &&
      r.link.written[..|l.written|] == l.written &&
      forall i :: |l.written| <= i < |r.link.written| ==> r.link.written[i] == packet
    decreases if attempt < retries then retries - attempt else 0
  {
    if attempt < retries && l.open {
      var l' := AfterRead(AfterWrite(l, packet));
      if Retryable(NextEvent(AfterWrite(l, packet))) && attempt < retries - 1 {
        ExchangeWritesBounded(packet, cmd, retries, attempt + 1, l');
        var r := Exchange(packet, cmd, retries, attempt + 1, l');
        assert r.link.written[..|l'.written|] == l'.written;
        assert r.link.written[..|l.written|] == l'.written[..|l.written|];
      }
    }
  }

  /** A SUCCESS ack ends the call with true: it was the last reply read. */
  lemma {:induction false} SuccessIsLastReply(packet: seq<byte>, cmd: byte, retries: int, attempt: nat, l: Link)
    requires Exchange(packet, cmd, retries, attempt, l).outcome == Returned(true)
    ensures var r := Exchange(packet, cmd, retries, attempt, l);
      l.open && |r.link.incoming| < |l.incoming| &&
      l.incoming[|l.incoming| - |r.link.incoming| - 1] == Got(ACK_SUCCESS) &&
      r.link.incoming == l.incoming[|l.incoming| - |r.link.incoming|..]
    decreases if attempt < retries then retries - attempt else 0
  {
    var sent := AfterWrite(l, packet);
    var ev := NextEvent(sent);
    var l' := AfterRead(sent);
    if Retryable(ev) {
      SuccessIsLastReply(packet, cmd, retries, attempt + 1, l');
      var r := Exchange(packet, cmd, retries, attempt + 1, l');
      if |l.incoming| > 0 {
        assert l'.incoming == l.incoming[1..];
        assert l.incoming[|l.incoming| - |r.link.incoming| - 1] == l'.incoming[|l'.incoming| - |r.link.incoming| - 1];
      }
    }
  }

  /** A closed port raises a serial error and is left as it was. */
  lemma ExchangeOnClosedPort(packet: seq<byte>, cmd: byte, retries: int, l: Link)
    requires !l.open && 0 < retries
    ensures Exchange(packet, cmd, retries, 0, l) == Run(Raised(SerialError), l)
  {
  }

  // ---------------------------------------------------------------------
  // Sequences of requests.

  /** Running a + b is running a and, if every request of a returned true, then b. */
  lemma {:induction false} RunAllAppend(retries: int, l: Link, a: seq<Request>, b: seq<Request>)
    ensures var ra := RunAll(retries, l, a);
      RunAll(retries, l, a + b) == if ra.outcome == Returned(true) then RunAll(retries, ra.link, b) else ra
    decreases |a|
  {
    if |a| == 0 {
      assert a + b == b;
    } else {
      assert (a + b)[0] == a[0];
      assert (a + b)[1..] == a[1..] + b;
      var r := Perform(retries, l, a[0]);
      if r.outcome == Returned(true) {
        RunAllAppend(retries, r.link, a[1..], b);
      }
    }
  }

  /** A list of requests returns true only if every request could be encoded and was sent. */
  lemma {:induction false} RunAllTrueSendsAll(retries: int, l: Link, reqs: seq<Request>)
    requires RunAll(retries, l, reqs).outcome == Returned(true)
    ensures forall i :: 0 <= i < |reqs| ==> reqs[i].Send?
    decreases |reqs|
  {
    if |reqs| > 0 {
      var r := Perform(retries, l, reqs[0]);
      assert r.outcome == Returned(true);
      assert reqs[0].Send?;
      assert RunAll(retries, r.link, reqs[1..]) == RunAll(retries, l, reqs);
      RunAllTrueSendsAll(retries, r.link, reqs[1..]);
      forall i | 1 <= i < |reqs|
        ensures reqs[i].Send?
      {
        assert reqs[i] == reqs[1..][i - 1];
      }
    }
  }

  /** A request followed by more: the rest runs only if the first returned true. */
  lemma RunAllCons(retries: int, l: Link, first: Request, rest: seq<Request>)
    ensures var r := Perform(retries, l, first);
      RunAll(retries, l, [first] + rest) == if r.outcome == Returned(true) then RunAll(retries, r.link, rest) else r
  {
    assert ([first] + rest)[1..] == rest;
  }

  /** Two requests: the second runs only if the first returned true. */
  lemma RunAllPair(retries: int, l: Link, a: Request, b: Request)
    ensures var r := Perform(retries, l, a);
      RunAll(retries, l, [a, b]) == if r.outcome == Returned(true) then Perform(retries, r.link, b) else r
  {
    assert [a, b] == [a] + [b];
    RunAllCons(retries, l, a, [b]);
    var r := Perform(retries, l, a);
    if r.outcome == Returned(true) {
      assert [b] == [b] + [];
      RunAllCons(retries, r.link, b, []);
    }
  }

  /** A single request run as a list is that request. */
  lemma RunAllSingle(retries: int, l: Link, a: Request)
    ensures RunAll(retries, l, [a]) == Perform(retries, l, a)
  {
    assert [a][1..] == [];
  }

  /**
   * Presses, then `time.sleep(seconds)`, then releases, as `*_press_for` and
   * `hotkey` do. The releases run only if every press returned true; a
   * negative length makes `time.sleep` raise ValueError after the presses
   * and before any release, so the pressed keys or button stay held.
   */
  function HoldThenRelease(retries: int, l: Link, presses: seq<Request>, seconds: real, releases: seq<Request>): (r: Run)
    ensures seconds >= 0.0 ==> r == RunAll(retries, l, presses + releases)
    ensures seconds < 0.0 ==> r.outcome != Returned(true) && r.link == RunAll(retries, l, presses).link
    ensures seconds < 0.0 && RunAll(retries, l, presses).outcome == Returned(true) ==> r.outcome == Raised(NegativeSleep)
  {
    RunAllAppend(retries, l, presses, releases);
    var p := RunAll(retries, l, presses);
    if p.outcome != Returned(true) then p
    else if seconds < 0.0 then Run(Raised(NegativeSleep), p.link)
    else RunAll(retries, p.link, releases)
  }

  /** Running the requests from position i on: the i-th request, then the rest if it returned true. */
  lemma RunAllFrom(retries: int, l: Link, reqs: seq<Request>, i: nat)
    requires i < |reqs|
    ensures var r := Perform(retries, l, reqs[i]);
      RunAll(retries, l, reqs[i..]) == if r.outcome == Returned(true) then RunAll(retries, r.link, reqs[i + 1..]) else r
  {
    assert reqs[i..][1..] == reqs[i + 1..];
  }

  /**
   * `hotkey` stops at the first press that does not return true: the run is
   * exactly the run of the presses, so no release frame is written and the
   * keys pressed before the failure stay down.
   */
  lemma HotkeyStopsAtFailedPress(retries: int, l: Link, keys: seq<int>)
    requires RunAll(retries, l, KeyRequests(CMD_KB_PRESS, keys)).outcome != Returned(true)
    ensures RunAll(retries, l, HotkeyRequests(keys)) == RunAll(retries, l, KeyRequests(CMD_KB_PRESS, keys))
  {
    RunAllAppend(retries, l, KeyRequests(CMD_KB_PRESS, keys), KeyRequests(CMD_KB_RELEASE, Reverse(keys)));
  }

  /**
   * Two examples of the retry loop with three attempts allowed: a timeout, a
   * CRC_ERROR and then SUCCESS return true after three writes; with two
   * attempts allowed the same replies raise the CRC error after two writes,
   * leaving the SUCCESS byte unread.
   */
  lemma RetryExamples(packet: seq<byte>, cmd: byte)
    ensures var l := Link(true, [Timeout, Got(ACK_CRC_ERROR), Got(ACK_SUCCESS)], []);
      Exchange(packet, cmd, 3, 0, l) == Run(Returned(true), Link(true, [], [packet, packet, packet])) &&
      Exchange(packet, cmd, 2, 0, l) == Run(Raised(CrcError), Link(true, [Got(ACK_SUCCESS)], [packet, packet]))
  {
    var l := Link(true, [Timeout, Got(ACK_CRC_ERROR), Got(ACK_SUCCESS)], []);
    var l1 := Link(true, [Got(ACK_CRC_ERROR), Got(ACK_SUCCESS)], [packet]);
    var l2 := Link(true, [Got(ACK_SUCCESS)], [packet, packet]);
    assert l.incoming[1..] == l1.incoming && l1.incoming[1..] == l2.incoming && l2.incoming[1..] == [];
    assert Exchange(packet, cmd, 3, 0, l) == Exchange(packet, cmd, 3, 1, l1);
    assert Exchange(packet, cmd, 3, 1, l1) == Exchange(packet, cmd, 3, 2, l2);
  }
}
