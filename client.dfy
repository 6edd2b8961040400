/** The receiving side: it opens the handshake, sends the two transfer
    parameters, then accepts data strictly in order, acknowledging each
    accepted packet cumulatively, until an RST arrives or it has as many good
    packets as it asked for. Each step is a function on `ReceiverState`;
    class `Receiver` runs the same steps in place and is proved to follow them. */
module Client {
  import opened Packets
  import Script

  datatype Option<T> = None | Some(value: T)

  /** The receiver's own conclusion, printed when its loop ends. */
  datatype Verdict = Pending | Passed | Failed

  /** What the receiver loads from its own copy of the test file: the number
      of fault-script entries, the window size N and the packet count S. */
  datatype TestCase = TestCase(numActions: int, windowSize: int, byteRequest: int)

  /** Everything the receiver updates. `out` is the one packet buffer every
      send fills in field by field; `sent` is what went on the wire. */
  datatype ReceiverState = ReceiverState(
    curAck: int, goodCount: int, recvCount: int, connAlive: bool,
    out: Packet, sent: seq<Packet>, verdict: Verdict)

  /** `load_input`, with the bound on the buffer tested before each read
      (the order the server's loader uses): the receiver's test case, with
      its script entries copied into `buf` and only counted afterwards. */
  method LoadInput(windowSize: int, byteRequest: int, tokens: seq<int>, buf: array<int>)
    returns (loaded: TestCase)
    modifies buf
    ensures loaded == TestCase(Script.Min(|tokens|, buf.Length), windowSize, byteRequest)
    ensures buf[..loaded.numActions] == tokens[..loaded.numActions]
  {
    var count := Script.LoadActions(tokens, buf);
    loaded := TestCase(count, windowSize, byteRequest);
  }

  // ---------------------------------------------------------------------
  // Handshake and parameters

  /** The session starts by sending one SYN with seq 0 and ack 0; `junk` is
      whatever the packet buffer holds before its first use. */
  function Connect(junk: Packet): (s: ReceiverState)
    ensures s.sent == [s.out]
    ensures s.out.seqNum == 0 && s.out.ackNum == 0 && s.out.flag == SYN
    ensures s.verdict == Pending && !s.connAlive
  {
    var syn := junk.(seqNum := 0, ackNum := 0, flag := SYN);
    ReceiverState(0, 0, 0, false, syn, [syn], Pending)
  }

  /** The only reply that ends the handshake wait. */
  predicate IsSynAck(p: Packet)
  {
    p.flag == SYN_ACK && p.ackNum == 0
  }

  /** Where the handshake wait stops: the first datagram that is a SYN_ACK
      with ack 0; every datagram before it is discarded. */
  function FirstSynAck(ps: seq<Packet>): (r: Option<nat>)
    ensures r.Some? <==> exists i :: 0 <= i < |ps| && IsSynAck(ps[i])
    ensures r.Some? ==>
      r.value < |ps| && IsSynAck(ps[r.value]) && forall j :: 0 <= j < r.value ==> !IsSynAck(ps[j])
    decreases |ps|
  {
    if ps == [] then None
    else if IsSynAck(ps[0]) then Some(0)
    else
      var rest := FirstSynAck(ps[1..]);
      assert forall i :: 1 <= i < |ps| ==> ps[i] == ps[1..][i - 1];
      if rest.None? then None else Some(rest.value + 1)
  }

  /** The handshake's closing ACK: seq 1, and the SYN_ACK's sequence number
      as its acknowledgement number. */
  function AckSynAck(s: ReceiverState, synAck: Packet): (t: ReceiverState)
    ensures t.sent == s.sent + [t.out]
    ensures t.out.seqNum == 1 && t.out.ackNum == synAck.seqNum && t.out.flag == ACK
    ensures t.out.payload == s.out.payload
    ensures t.(out := s.out, sent := s.sent) == s
  {
    var ack := s.out.(seqNum := 1, ackNum := synAck.seqNum, flag := ACK);
    s.(out := ack, sent := s.sent + [ack])
  }

  /** The two parameter packets, window size then packet count, each with
      the next sequence number and the handshake's acknowledgement number;
      then the receive loop starts, expecting the packet after that
      acknowledgement number, with both counters at 0. */
  function Parameters(c: TestCase, s: ReceiverState): (t: ReceiverState)
    ensures |t.sent| == |s.sent| + 2 && t.sent[..|s.sent|] == s.sent
    ensures t.sent[|s.sent|] == s.out.(seqNum := s.out.seqNum + 1, payload := c.windowSize)
    ensures t.sent[|s.sent| + 1] == s.out.(seqNum := s.out.seqNum + 2, payload := c.byteRequest)
    ensures t.out == t.sent[|s.sent| + 1]
    ensures t.curAck == s.out.ackNum && t.goodCount == 0 && t.recvCount == 0
    ensures t.connAlive && t.verdict == Pending
  {
    var windowPacket := s.out.(seqNum := s.out.seqNum + 1, payload := c.windowSize);
    var requestPacket := windowPacket.(seqNum := windowPacket.seqNum + 1, payload := c.byteRequest);
    ReceiverState(requestPacket.ackNum, 0, 0, true, requestPacket,
                  s.sent + [windowPacket, requestPacket], Pending)
  }

  // ---------------------------------------------------------------------
  // Receive loop

  /** A datagram is accepted when it is not an RST and carries the next
      expected sequence number; its flag is not otherwise looked at. */
  predicate Accepts(s: ReceiverState, p: Packet)
  {
    p.flag != RST && p.seqNum == s.curAck + 1
  }

  /** One pass of the receive loop for datagram `p`. Every datagram is
      counted. An RST ends the loop with "passed" exactly when the count
      equals the number of script entries. An accepted datagram advances
      `curAck` and `goodCount` together and is answered with an ACK for the new
      `curAck`, numbered one past the previous send; the loop then ends with
      "passed" if that was the requested number of good packets. Anything else
      is only counted. */
  function Deliver(c: TestCase, s: ReceiverState, p: Packet): (t: ReceiverState)
    ensures t.recvCount == s.recvCount + 1
    ensures t.curAck - t.goodCount == s.curAck - s.goodCount
    ensures Accepts(s, p) ==>
      t.curAck == s.curAck + 1 && t.goodCount == s.goodCount + 1 &&
      t.sent == s.sent + [t.out] && t.out == s.out.(seqNum := s.out.seqNum + 1, ackNum := t.curAck, flag := ACK)
    ensures !Accepts(s, p) ==>
      t.curAck == s.curAck && t.goodCount == s.goodCount && t.sent == s.sent && t.out == s.out
    ensures p.flag == RST ==> !t.connAlive && (t.verdict == Passed <==> t.recvCount == c.numActions)
    ensures Accepts(s, p) && t.goodCount == c.byteRequest ==> !t.connAlive && t.verdict == Passed
    ensures !(p.flag == RST || (Accepts(s, p) && t.goodCount == c.byteRequest)) ==>
      t.connAlive == s.connAlive && t.verdict == s.verdict
  {
    var counted := s.(recvCount := s.recvCount + 1);
    if p.flag == RST then
      counted.(connAlive := false, verdict := if counted.recvCount == c.numActions then Passed else Failed)
    else if p.seqNum == s.curAck + 1 then
      var ack := s.out.(seqNum := s.out.seqNum + 1, ackNum := s.curAck + 1, flag := ACK);
      var accepted := counted.(curAck := s.curAck + 1, goodCount := s.goodCount + 1,
                               out := ack, sent := s.sent + [ack]);
      if accepted.goodCount == c.byteRequest then accepted.(connAlive := false, verdict := Passed)
      else accepted
    else counted
  }

  /** The receive loop over the datagrams that arrive, while the connection is alive. */
  function Receive(c: TestCase, s: ReceiverState, ps: seq<Packet>): (t: ReceiverState)
    ensures s.recvCount <= t.recvCount <= s.recvCount + |ps|
    ensures !s.connAlive ==> t == s
    decreases |ps|
  {
    if !s.connAlive || ps == [] then s
    else Receive(c, Deliver(c, s, ps[0]), ps[1..])
  }

  /** Over the whole receive loop `curAck - goodCount` is unchanged, both
      only grow, and exactly one ACK goes out per accepted datagram, each
      acknowledging a sequence number past the starting `curAck`. */
  lemma {:induction false} ReceiveKeepsGap(c: TestCase, s: ReceiverState, ps: seq<Packet>)
    ensures var t := Receive(c, s, ps);
      t.curAck - t.goodCount == s.curAck - s.goodCount &&
      t.curAck >= s.curAck && t.goodCount >= s.goodCount && t.recvCount >= s.recvCount &&
      |t.sent| == |s.sent| + (t.goodCount - s.goodCount) && t.sent[..|s.sent|] == s.sent &&
      forall k :: |s.sent| <= k < |t.sent| ==>
        t.sent[k].flag == ACK && s.curAck < t.sent[k].ackNum <= t.curAck
    decreases |ps|
  {
    if s.connAlive && ps != [] {
      var d := Deliver(c, s, ps[0]);
      ReceiveKeepsGap(c, d, ps[1..]);
    }
  }

  /** At most the requested number of good packets, and fewer while the loop runs. */
  ghost predicate WithinRequest(c: TestCase, s: ReceiverState)
  {
    s.goodCount <= c.byteRequest && (s.connAlive ==> s.goodCount < c.byteRequest)
  }

  /** The receiver never holds more good packets than it asked for, as long
      as it asked for at least one. */
  lemma {:induction false} ReceiveWithinRequest(c: TestCase, s: ReceiverState, ps: seq<Packet>)
    requires c.byteRequest >= 1
    requires WithinRequest(c, s)
    ensures WithinRequest(c, Receive(c, s, ps))
    decreases |ps|
  {
    if s.connAlive && ps != [] {
      ReceiveWithinRequest(c, Deliver(c, s, ps[0]), ps[1..]);
    }
  }

  /** A request of 0 packets gives no such bound: the success test runs only
      after an acceptance, when `goodCount` is already 1, so the loop goes on
      past the request. */
  lemma ZeroRequestOvershoots(c: TestCase, s: ReceiverState)
    requires c.byteRequest == 0 && s.connAlive && s.goodCount == 0
    ensures var t := Deliver(c, s, Packet(s.curAck + 1, 0, ACK, 0));
      t.goodCount == 1 > c.byteRequest && t.connAlive
  {
  }

  /** The loop ends with a verdict, and only then: "passed" means the request
      was met (the loop stopped on the acceptance that met it) or an RST came
      as the datagram numbered `numActions`. */
  lemma {:induction false} ReceiveVerdict(c: TestCase, s: ReceiverState, ps: seq<Packet>)
    requires s.connAlive <==> s.verdict == Pending
    ensures var t := Receive(c, s, ps);
      (t.connAlive <==> t.verdict == Pending) &&
      (t.connAlive ==> t.recvCount == s.recvCount + |ps|) &&
      (t.verdict == Passed && s.verdict == Pending ==>
        t.goodCount == c.byteRequest || t.recvCount == c.numActions)
    decreases |ps|
  {
    if s.connAlive && ps != [] {
      ReceiveVerdict(c, Deliver(c, s, ps[0]), ps[1..]);
    }
  }

  // ---------------------------------------------------------------------
  // The receiver in place

  /** The receiver's session: the locals of the program's `main` as fields,
      updated step by step. Every method is proved to do what the matching
      function above says, so the lemmas about those functions apply to it. */
  class Receiver {
    var numActions: int
    var windowSize: int
    var byteRequest: int
    var curAck: int
    var goodCount: int
    var recvCount: int
    var connAlive: bool
    var out: Packet
    var sent: seq<Packet>
    var verdict: Verdict

    function Loaded(): TestCase
      reads this
    {
      TestCase(numActions, windowSize, byteRequest)
    }

    function State(): ReceiverState
      reads this
    {
      ReceiverState(curAck, goodCount, recvCount, connAlive, out, sent, verdict)
    }

    /** A receiver with its loaded test case, having sent its SYN. */
    constructor (loaded: TestCase, junk: Packet)
      ensures Loaded() == loaded
      ensures State() == Connect(junk)
    {
      numActions, windowSize, byteRequest := loaded.numActions, loaded.windowSize, loaded.byteRequest;
      curAck, goodCount, recvCount, connAlive, verdict := 0, 0, 0, false, Pending;
      out := junk.(seqNum := 0, ackNum := 0, flag := SYN);
      sent := [out];
    }

    /** The handshake wait: discard datagrams until a SYN_ACK with ack 0,
        then send the handshake's ACK. */
    method AwaitSynAck(incoming: seq<Packet>) returns (consumed: nat, established: bool)
      modifies this
      ensures Loaded() == old(Loaded())
      ensures established <==> FirstSynAck(incoming).Some?
      ensures established ==>
        consumed == FirstSynAck(incoming).value + 1 && State() == AckSynAck(old(State()), incoming[consumed - 1])
      ensures !established ==> consumed == |incoming| && State() == old(State())
    {
      consumed, established := 0, false;
      while consumed < |incoming|
        invariant consumed <= |incoming|
        invariant forall j :: 0 <= j < consumed ==> !IsSynAck(incoming[j])
        invariant Loaded() == old(Loaded()) && State() == old(State())
      {
        var p := incoming[consumed];
        consumed := consumed + 1;
        if p.flag == SYN_ACK && p.ackNum == 0 {
          established := true;
          out := out.(seqNum := 1, ackNum := p.seqNum, flag := ACK);
          sent := sent + [out];
          return;
        }
      }
    }

    /** Sends the window size and the packet count, then starts the receive loop. */
    method SendParameters()
      modifies this
      ensures Loaded() == old(Loaded())
      ensures State() == Parameters(Loaded(), old(State()))
    {
      out := out.(seqNum := out.seqNum + 1, payload := windowSize);
      sent := sent + [out];
      out := out.(seqNum := out.seqNum + 1, payload := byteRequest);
      sent := sent + [out];
      curAck := out.ackNum;
      goodCount, recvCount := 0, 0;
      connAlive := true;
      verdict := Pending;
    }

    /** One pass of the receive loop. */
    method OnPacket(p: Packet)
      requires connAlive
      modifies this
      ensures Loaded() == old(Loaded())
      ensures State() == Deliver(Loaded(), old(State()), p)
    {
      recvCount := recvCount + 1;
      if p.flag == RST {
        verdict := if recvCount == numActions then Passed else Failed;
        connAlive := false;
        return;
      }
      if p.seqNum == curAck + 1 {
        curAck := curAck + 1;
        goodCount := goodCount + 1;
        out := out.(seqNum := out.seqNum + 1, ackNum := curAck, flag := ACK);
        sent := sent + [out];
        if goodCount == byteRequest {
          verdict := Passed;
          connAlive := false;
        }
      }
    }

    /** The receive loop over the datagrams that arrive, while the connection is alive. */
    method ReceiveLoop(incoming: seq<Packet>) returns (consumed: nat)
      modifies this
      ensures Loaded() == old(Loaded())
      ensures State() == Receive(Loaded(), old(State()), incoming)
      ensures consumed <= |incoming| && (consumed < |incoming| ==> !connAlive)
    {
      consumed := 0;
      while connAlive && consumed < |incoming|
        invariant consumed <= |incoming|
        invariant Loaded() == old(Loaded())
        invariant Receive(Loaded(), State(), incoming[consumed..]) == Receive(Loaded(), old(State()), incoming)
      {
        assert incoming[consumed..][1..] == incoming[consumed + 1..];
        OnPacket(incoming[consumed]);
        consumed := consumed + 1;
      }
    }
  }
}
