/** The sending side: handshake, Go-Back-N transfer with a scripted fault
    injector, and the closing RST. Each loop iteration of the program is a
    function on `SenderState`; class `Sender` runs the same steps in place and
    is proved to follow them. */
module Server {
  import opened Packets
  import Script

  const MAX_RETRIES := 3
  /** `cur_seq`: the sequence number of the SYN_ACK and of the RST. */
  const CUR_SEQ := 1
  /** `cur_ack`: the acknowledgement number of every data packet and the RST. */
  const CUR_ACK := 3

  /** Fault codes of the script; any other value sends normally. */
  const SIMULATE_TIMEOUT := 1
  const SIMULATE_CORRUPT := 2

  /** One line of the corrupted-packet log: the sequence number and the letter
      the packet should have carried. */
  datatype LogRecord = LogRecord(seqNum: int, original: int)

  /** The fault script and the two parameters the receiver sends. */
  datatype Config = Config(script: seq<int>, windowSize: int, total: int)

  /** Everything the transfer phase updates. `out` is the one packet buffer
      that every send fills in field by field; `sent` is what went on the
      wire, `log` what went to the corrupted-packet log. */
  datatype SenderState = SenderState(
    base: int, nextSeq: int, retries: int, actionIndex: nat,
    out: Packet, sent: seq<Packet>, log: seq<LogRecord>)

  /** The outcome of the bounded wait after filling the window. */
  datatype WaitOutcome = TimedOut | Arrived(p: Packet)

  /** The state before the handshake; `junk` is the uninitialised packet buffer. */
  function Initial(junk: Packet): SenderState
  {
    SenderState(1, 1, 0, 0, junk, [], [])
  }

  /** What every reachable state satisfies. */
  ghost predicate Inv(c: Config, s: SenderState)
  {
    1 <= s.base && 1 <= s.nextSeq && 0 <= s.retries < MAX_RETRIES && s.actionIndex <= |c.script|
  }

  /** Rank of a state: `(total - base, MAX_RETRIES - 1 - retries)` read
      lexicographically. It is non-negative exactly while the transfer loop runs. */
  function Rank(c: Config, s: SenderState): int
  {
    MAX_RETRIES * (c.total - s.base) + (MAX_RETRIES - 1 - s.retries)
  }

  // ---------------------------------------------------------------------
  // Handshake

  /** The reply to one handshake datagram: a SYN is answered with SYN_ACK
      (seq `cur_seq`, ack 0); anything else is not answered. */
  function HandshakeReply(s: SenderState, p: Packet): (t: SenderState)
    ensures p.flag == SYN ==>
      t.sent == s.sent + [t.out] && t.out.seqNum == CUR_SEQ && t.out.ackNum == 0 && t.out.flag == SYN_ACK
    ensures p.flag != SYN ==> t == s
    ensures t.(out := s.out, sent := s.sent) == s
  {
    if p.flag == SYN then
      var reply := s.out.(seqNum := CUR_SEQ, ackNum := 0, flag := SYN_ACK);
      s.(out := reply, sent := s.sent + [reply])
    else s
  }

  /** The handshake loop over the datagrams that arrive: answers each one
      until an ACK arrives. Gives the new state, how many datagrams were
      consumed and whether the ACK was seen. */
  function AwaitHandshake(s: SenderState, ps: seq<Packet>): (r: (SenderState, nat, bool))
    ensures r.1 <= |ps|
    ensures r.2 ==> 1 <= r.1 && ps[r.1 - 1].flag == ACK
    ensures !r.2 ==> r.1 == |ps|
    decreases |ps|
  {
    if ps == [] then (s, 0, false)
    else if ps[0].flag == ACK then (s, 1, true)
    else
      var r := AwaitHandshake(HandshakeReply(s, ps[0]), ps[1..]);
      (r.0, r.1 + 1, r.2)
  }

  function CountFlag(ps: seq<Packet>, flag: int): nat
  {
    if ps == [] then 0 else (if ps[0].flag == flag then 1 else 0) + CountFlag(ps[1..], flag)
  }

  /** The handshake ends exactly at the first ACK; until then every SYN, and
      nothing else, gets one SYN_ACK with seq 1 and ack 0; nothing but the
      packet buffer and the wire changes. */
  lemma {:induction false} HandshakeOutcome(s: SenderState, ps: seq<Packet>)
    ensures var (t, consumed, established) := AwaitHandshake(s, ps);
      consumed <= |ps| &&
      (established <==> exists i :: 0 <= i < |ps| && ps[i].flag == ACK) &&
      (established ==> ps[consumed - 1].flag == ACK) &&
      (forall j :: 0 <= j < consumed - 1 ==> ps[j].flag != ACK) &&
      (!established ==> consumed == |ps|) &&
      t.(out := s.out, sent := s.sent) == s &&
      |s.sent| <= |t.sent| && t.sent[..|s.sent|] == s.sent &&
      |t.sent| - |s.sent| == CountFlag(ps[..consumed], SYN) &&
      forall k :: |s.sent| <= k < |t.sent| ==>
        t.sent[k].seqNum == CUR_SEQ && t.sent[k].ackNum == 0 && t.sent[k].flag == SYN_ACK
    decreases |ps|
  {
    if ps != [] {
      if ps[0].flag == ACK {
        assert ps[..1] == [ps[0]];
        assert CountFlag(ps[..1], SYN) == 0 by {
          assert ps[..1][1..] == [];
        }
      } else {
        var s1 := HandshakeReply(s, ps[0]);
        HandshakeOutcome(s1, ps[1..]);
        var (t, consumed, established) := AwaitHandshake(s1, ps[1..]);
        assert (exists i :: 0 <= i < |ps| && ps[i].flag == ACK) <==>
               (exists i :: 0 <= i < |ps[1..]| && ps[1..][i].flag == ACK) by {
          if exists i :: 0 <= i < |ps| && ps[i].flag == ACK {
            var i :| 0 <= i < |ps| && ps[i].flag == ACK;
            assert ps[1..][i - 1].flag == ACK;
          }
        }
        assert ps[..consumed + 1][1..] == ps[1..][..consumed];
      }
    }
  }

  // ---------------------------------------------------------------------
  // Transfer: window fill with the fault injector

  /** The fault code for attempt `i`: the script entry while the script lasts,
      then 0 (send normally). */
  function ActionAt(script: seq<int>, i: nat): int
  {
    if i < |script| then script[i] else 0
  }

  /** The action index after one attempt: it advances only while the script lasts. */
  function NextIndex(script: seq<int>, i: nat): (j: nat)
    ensures i <= |script| ==> j <= |script|
  {
    if i < |script| then i + 1 else i
  }

  /** Counting attempts from the next index is counting from one further:
      past the end of the script every code is 0 either way. */
  lemma ActionShift(script: seq<int>, i: nat, k: nat)
    ensures ActionAt(script, NextIndex(script, i) + k) == ActionAt(script, i + 1 + k)
  {
  }

  /** The window-fill guard: room in the window and packets left to send. */
  predicate CanSend(c: Config, base: int, nextSeq: int)
  {
    nextSeq < base + c.windowSize && nextSeq <= c.total
  }

  /** The data packet built for sequence number `n`. */
  function DataPacket(n: int): Packet
  {
    Packet(n, CUR_ACK, ACK, DataPayload(n))
  }

  /** The packet that goes on the wire for sequence number `n` when the
      attempt's fault code is `action` (only called when it is not a timeout). */
  function WirePacket(action: int, n: int): Packet
  {
    if action == SIMULATE_CORRUPT then DataPacket(n).(payload := CORRUPTED) else DataPacket(n)
  }

  /** Counts one more retry for the current base; the third forces the window
      forward by one and starts counting afresh. */
  function CountRetry(s: SenderState): (t: SenderState)
    ensures 0 <= s.retries < MAX_RETRIES ==> 0 <= t.retries < MAX_RETRIES
    ensures t.base == s.base || (t.base == s.base + 1 && t.retries == 0)
    ensures t.base == s.base ==> t.retries == s.retries + 1
    ensures 0 <= s.retries < MAX_RETRIES ==> forall c: Config {:trigger Rank(c, t)} :: Rank(c, t) == Rank(c, s) - 1
    ensures t.(base := s.base, retries := s.retries) == s
  {
    var r := s.retries + 1;
    if r >= MAX_RETRIES then s.(base := s.base + 1, retries := 0) else s.(retries := r)
  }

  /** The window-fill loop. Each attempt builds the data packet and consumes
      one fault code: 1 stops filling after counting a retry, 2 logs the
      original letter and sends the packet with payload '?', anything else
      sends it unchanged; both sends advance `nextSeq` and re-test the guard. */
  function Fill(c: Config, s: SenderState): (t: SenderState)
    ensures s.nextSeq <= t.nextSeq && s.base <= t.base
    decreases c.total - s.nextSeq
  {
    if !CanSend(c, s.base, s.nextSeq) then s
    else
      var pkt := DataPacket(s.nextSeq);
      var action := ActionAt(c.script, s.actionIndex);
      var s1 := s.(out := pkt, actionIndex := NextIndex(c.script, s.actionIndex));
      if action == SIMULATE_TIMEOUT then CountRetry(s1)
      else
        var wire := WirePacket(action, s.nextSeq);
        var log := if action == SIMULATE_CORRUPT then s.log + [LogRecord(s.nextSeq, pkt.payload)] else s.log;
        Fill(c, s1.(out := wire, sent := s.sent + [wire], log := log, nextSeq := s.nextSeq + 1))
  }

  /** Attempt `k` of a fill that started in state `s` put packet `p` on
      the wire: the packet for sequence number `s.nextSeq + k`, with '?' in
      place of its letter when that attempt's code is 2, inside the window of
      the starting base and at most `total`. */
  ghost predicate SentAt(c: Config, s: SenderState, k: nat, p: Packet)
  {
    var action := ActionAt(c.script, s.actionIndex + k);
    action != SIMULATE_TIMEOUT && p == WirePacket(action, s.nextSeq + k) && CanSend(c, s.base, p.seqNum)
  }

  /** The state after one attempt that sent `wire`. */
  function AfterSend(c: Config, s: SenderState, wire: Packet, log: seq<LogRecord>): SenderState
  {
    s.(out := wire, actionIndex := NextIndex(c.script, s.actionIndex),
       sent := s.sent + [wire], log := log, nextSeq := s.nextSeq + 1)
  }

  /** Attempt `k` after one send is attempt `k + 1` of the whole fill. */
  lemma SentAtShift(c: Config, s: SenderState, wire: Packet, log: seq<LogRecord>, k: nat, p: Packet)
    requires SentAt(c, AfterSend(c, s, wire, log), k, p)
    ensures SentAt(c, s, k + 1, p)
  {
  }

  /** One unfolding of `Fill` when the first attempt sends. */
  lemma FillUnfoldsOnSend(c: Config, s: SenderState)
    requires CanSend(c, s.base, s.nextSeq)
    requires ActionAt(c.script, s.actionIndex) != SIMULATE_TIMEOUT
    ensures var action := ActionAt(c.script, s.actionIndex);
      var wire := WirePacket(action, s.nextSeq);
      var log := if action == SIMULATE_CORRUPT then s.log + [LogRecord(s.nextSeq, DataPayload(s.nextSeq))] else s.log;
      Fill(c, s) == Fill(c, AfterSend(c, s, wire, log))
  {
  }

  /** A fill only appends to the wire, one packet per advance of `nextSeq`. */
  lemma {:induction false} FillExtends(c: Config, s: SenderState)
    ensures var f := Fill(c, s);
      s.nextSeq <= f.nextSeq &&
      |s.sent| <= |f.sent| && f.sent[..|s.sent|] == s.sent &&
      |f.sent| - |s.sent| == f.nextSeq - s.nextSeq
    decreases c.total - s.nextSeq
  {
    if CanSend(c, s.base, s.nextSeq) && ActionAt(c.script, s.actionIndex) != SIMULATE_TIMEOUT {
      var action := ActionAt(c.script, s.actionIndex);
      var wire := WirePacket(action, s.nextSeq);
      var log := if action == SIMULATE_CORRUPT then s.log + [LogRecord(s.nextSeq, DataPayload(s.nextSeq))] else s.log;
      FillUnfoldsOnSend(c, s);
      FillExtends(c, AfterSend(c, s, wire, log));
    }
  }

  /** What a fill puts on the wire: packet k of those it appends is the one
      attempt k sent (see `SentAt`), so the sequence numbers are `nextSeq,
      nextSeq+1, ...` in order, each packet carries its letter, or '?' exactly
      when its code is 2, and none was drawn with code 1. */
  lemma {:induction false} FillSends(c: Config, s: SenderState)
    ensures var f := Fill(c, s);
      |s.sent| <= |f.sent| &&
      forall k :: |s.sent| <= k < |f.sent| ==> SentAt(c, s, k - |s.sent|, f.sent[k])
    decreases c.total - s.nextSeq
  {
    FillExtends(c, s);
    if CanSend(c, s.base, s.nextSeq) && ActionAt(c.script, s.actionIndex) != SIMULATE_TIMEOUT {
      var action := ActionAt(c.script, s.actionIndex);
      var wire := WirePacket(action, s.nextSeq);
      var log := if action == SIMULATE_CORRUPT then s.log + [LogRecord(s.nextSeq, DataPayload(s.nextSeq))] else s.log;
      var s2 := AfterSend(c, s, wire, log);
      FillUnfoldsOnSend(c, s);
      FillSends(c, s2);
      FillExtends(c, s2);
      var f := Fill(c, s2);
      forall k | |s.sent| <= k < |f.sent|
        ensures SentAt(c, s, k - |s.sent|, f.sent[k])
      {
        if k > |s.sent| {
          SentAtShift(c, s, wire, log, k - |s2.sent|, f.sent[k]);
        }
      }
    }
  }

  /** The log record a corrupted packet leaves: its sequence number and the
      letter it should have carried. */
  function CorruptLog(ps: seq<Packet>): seq<LogRecord>
  {
    if ps == [] then []
    else (if ps[0].payload == CORRUPTED then [LogRecord(ps[0].seqNum, DataPayload(ps[0].seqNum))] else [])
         + CorruptLog(ps[1..])
  }

  /** Corruption accounting: a fill appends to the log exactly one record per
      corrupted packet it sent, in sending order, with the original letter. */
  lemma {:induction false} FillLogs(c: Config, s: SenderState)
    requires 1 <= s.nextSeq
    ensures var f := Fill(c, s);
      |s.sent| <= |f.sent| && f.log == s.log + CorruptLog(f.sent[|s.sent|..])
    decreases c.total - s.nextSeq
  {
    FillExtends(c, s);
    if CanSend(c, s.base, s.nextSeq) {
      var action := ActionAt(c.script, s.actionIndex);
      if action != SIMULATE_TIMEOUT {
        var wire := WirePacket(action, s.nextSeq);
        var record := if action == SIMULATE_CORRUPT then [LogRecord(s.nextSeq, DataPayload(s.nextSeq))] else [];
        var s2 := AfterSend(c, s, wire, s.log + record);
        FillUnfoldsOnSend(c, s);
        assert s.log + record == (if action == SIMULATE_CORRUPT then s.log + [LogRecord(s.nextSeq, DataPayload(s.nextSeq))] else s.log);
        FillLogs(c, s2);
        FillExtends(c, s2);
        var f := Fill(c, s);
        var rest := f.sent[|s2.sent|..];
        assert f.sent[|s.sent|..] == [wire] + rest;
        assert CorruptLog([wire] + rest) == record + CorruptLog(rest) by {
          assert ([wire] + rest)[1..] == rest;
        }
        assert f.log == s.log + record + CorruptLog(rest);
      } else {
        assert Fill(c, s).sent[|s.sent|..] == [];
      }
    } else {
      assert Fill(c, s).sent[|s.sent|..] == [];
    }
  }

  /** How a fill ends, with `n` packets sent: either the guard failed at
      `nextSeq` (base, retries untouched, `n` codes consumed), or attempt `n`
      drew code 1 with the guard still true (that code consumed too, one retry
      counted, a forced slide on the third). The action index never passes the
      end of the script. */
  lemma {:induction false} FillStops(c: Config, s: SenderState)
    requires s.actionIndex <= |c.script|
    ensures var f := Fill(c, s);
      var n := f.nextSeq - s.nextSeq;
      0 <= n && f.actionIndex <= |c.script| &&
      (CanSend(c, s.base, f.nextSeq) ==>
        ActionAt(c.script, s.actionIndex + n) == SIMULATE_TIMEOUT &&
        f.actionIndex == Script.Min(|c.script|, s.actionIndex + n + 1) &&
        f == CountRetry(s.(nextSeq := f.nextSeq, actionIndex := f.actionIndex,
                           out := DataPacket(f.nextSeq), sent := f.sent, log := f.log))) &&
      (!CanSend(c, s.base, f.nextSeq) ==>
        f.actionIndex == Script.Min(|c.script|, s.actionIndex + n) &&
        f.base == s.base && f.retries == s.retries)
    decreases c.total - s.nextSeq
  {
    if CanSend(c, s.base, s.nextSeq) {
      var action := ActionAt(c.script, s.actionIndex);
      if action != SIMULATE_TIMEOUT {
        var wire := WirePacket(action, s.nextSeq);
        var log := if action == SIMULATE_CORRUPT then s.log + [LogRecord(s.nextSeq, DataPayload(s.nextSeq))] else s.log;
        var s2 := AfterSend(c, s, wire, log);
        FillUnfoldsOnSend(c, s);
        FillStops(c, s2);
        var f := Fill(c, s2);
        assert f == Fill(c, s);
        assert s2.base == s.base && s2.retries == s.retries && s2.nextSeq == s.nextSeq + 1;
        assert s2.actionIndex == s.actionIndex + 1 || s2.actionIndex == s.actionIndex == |c.script|;
        var n := f.nextSeq - s.nextSeq;
        if CanSend(c, s.base, f.nextSeq) {
          ActionShift(c.script, s.actionIndex, n - 1);
        }
      }
    }
  }

  /** A fill keeps the invariant and never raises the rank: it lowers it by
      one exactly when it stops on a simulated timeout, that is with the guard
      still true for the starting base. */
  lemma FillKeeps(c: Config, s: SenderState)
    requires Inv(c, s)
    ensures var f := Fill(c, s);
      Inv(c, f) && f.base >= s.base &&
      Rank(c, f) == (if CanSend(c, s.base, f.nextSeq) then Rank(c, s) - 1 else Rank(c, s))
  {
    FillStops(c, s);
  }

  // ---------------------------------------------------------------------
  // Transfer: the wait for an acknowledgement

  /** The bounded wait timed out: go back to `base` (resend the whole window
      next round) and count a retry. Every timeout lowers the rank by exactly one. */
  function Timeout(s: SenderState): (t: SenderState)
    ensures t.nextSeq == s.base
    ensures 0 <= s.retries < MAX_RETRIES ==> 0 <= t.retries < MAX_RETRIES
    ensures 0 <= s.retries < MAX_RETRIES ==> forall c: Config {:trigger Rank(c, t)} :: Rank(c, t) == Rank(c, s) - 1
    ensures t.base == s.base || (t.base == s.base + 1 && t.retries == 0 && s.retries >= MAX_RETRIES - 1)
    ensures t.(nextSeq := s.nextSeq, base := s.base, retries := s.retries) == s
  {
    CountRetry(s.(nextSeq := s.base))
  }

  /** A datagram arrived within the wait: a cumulative ACK for `base` or later
      moves `base` past it and clears the retry count; a stale ACK or any
      other flag changes nothing. */
  function Acknowledge(s: SenderState, p: Packet): (t: SenderState)
    ensures t.base >= s.base
    ensures t.base > s.base <==> p.flag == ACK && p.ackNum >= s.base
    ensures t.base > s.base ==> t.base == p.ackNum + 1 && t.retries == 0
    ensures t.base == s.base ==> t == s
    ensures t.(base := s.base, retries := s.retries) == s
  {
    if p.flag == ACK && p.ackNum >= s.base then s.(base := p.ackNum + 1, retries := 0) else s
  }

  /** One round of the transfer loop: fill the window, then handle the wait. */
  function Round(c: Config, s: SenderState, e: WaitOutcome): (t: SenderState)
    ensures s.base <= t.base
    ensures e.TimedOut? ==> t.nextSeq == Fill(c, s).base
  {
    var f := Fill(c, s);
    match e
    case TimedOut => Timeout(f)
    case Arrived(p) => Acknowledge(f, p)
  }

  /** The transfer loop: rounds while `base <= total`, one wait outcome per
      round, for as many outcomes as are given. */
  function Transfer(c: Config, s: SenderState, events: seq<WaitOutcome>): (t: SenderState)
    ensures s.base <= t.base
    ensures s.base > c.total || events == [] ==> t == s
    decreases |events|
  {
    if s.base > c.total || events == [] then s
    else Transfer(c, Round(c, s, events[0]), events[1..])
  }

  /** A round keeps the invariant and never raises the rank. A round that
      times out lowers it by one more than its fill did; one that gets an ACK
      for the current base or later lowers it too. */
  lemma RoundKeeps(c: Config, s: SenderState, e: WaitOutcome)
    requires Inv(c, s)
    ensures var t := Round(c, s, e);
      Inv(c, t) && t.base >= s.base && Rank(c, t) <= Rank(c, s) &&
      (e.TimedOut? ==> Rank(c, t) == Rank(c, Fill(c, s)) - 1 && Rank(c, t) < Rank(c, s)) &&
      (e.Arrived? && e.p.flag == ACK && e.p.ackNum >= Fill(c, s).base ==> Rank(c, t) < Rank(c, s))
  {
    FillKeeps(c, s);
  }

  /** The loop runs exactly while the rank is non-negative. */
  lemma RankSign(c: Config, s: SenderState)
    requires Inv(c, s)
    ensures s.base <= c.total <==> Rank(c, s) >= 0
  {
  }

  /** The invariant holds throughout the transfer loop, `base` never
      decreases, the rank never rises, and the wire is only appended to. */
  lemma {:induction false} TransferKeeps(c: Config, s: SenderState, events: seq<WaitOutcome>)
    requires Inv(c, s)
    ensures var t := Transfer(c, s, events);
      Inv(c, t) && t.base >= s.base && Rank(c, t) <= Rank(c, s) &&
      |s.sent| <= |t.sent| && t.sent[..|s.sent|] == s.sent
    decreases |events|
  {
    if s.base <= c.total && events != [] {
      var r := Round(c, s, events[0]);
      RoundKeeps(c, s, events[0]);
      FillExtends(c, s);
      TransferKeeps(c, r, events[1..]);
      var t := Transfer(c, r, events[1..]);
      assert t.sent[..|s.sent|] == t.sent[..|r.sent|][..|s.sent|];
    }
  }

  /** Liveness under persistent timeouts: from any reachable state, `Rank + 1`
      timed-out rounds bring `base` past `total` -- from the start state that
      is `total * MAX_RETRIES` rounds -- whatever the fault script says. */
  lemma {:induction false} TimeoutsFinish(c: Config, s: SenderState, events: seq<WaitOutcome>)
    requires Inv(c, s)
    requires forall i :: 0 <= i < |events| ==> events[i] == TimedOut
    requires |events| > Rank(c, s)
    ensures Transfer(c, s, events).base > c.total
    decreases |events|
  {
    if s.base <= c.total {
      RoundKeeps(c, s, events[0]);
      assert forall i :: 0 <= i < |events[1..]| ==> events[1..][i] == events[i + 1];
      TimeoutsFinish(c, Round(c, s, events[0]), events[1..]);
    }
  }

  /** From the start state the rank is `total * MAX_RETRIES - 1`. */
  lemma InitialRank(c: Config, junk: Packet)
    ensures Inv(c, Initial(junk))
    ensures Rank(c, Initial(junk)) == c.total * MAX_RETRIES - 1
  {
  }

  /** The window stays bounded above: a fill keeps `nextSeq <= base +
      windowSize`. */
  lemma {:induction false} FillWithinWindow(c: Config, s: SenderState)
    requires s.nextSeq <= s.base + c.windowSize
    ensures var f := Fill(c, s); f.nextSeq <= f.base + c.windowSize
    decreases c.total - s.nextSeq
  {
    if CanSend(c, s.base, s.nextSeq) {
      var action := ActionAt(c.script, s.actionIndex);
      if action != SIMULATE_TIMEOUT {
        var wire := WirePacket(action, s.nextSeq);
        var log := if action == SIMULATE_CORRUPT then s.log + [LogRecord(s.nextSeq, DataPayload(s.nextSeq))] else s.log;
        var s2 := AfterSend(c, s, wire, log);
        FillUnfoldsOnSend(c, s);
        FillWithinWindow(c, s2);
      }
    }
  }

  /** So does a whole round, for any non-negative window size: a timeout
      resets `nextSeq` to `base` and its forced slide moves `base` up, and an
      ACK only moves `base` up. */
  lemma RoundWithinWindow(c: Config, s: SenderState, e: WaitOutcome)
    requires 0 <= c.windowSize
    requires s.nextSeq <= s.base + c.windowSize
    ensures var t := Round(c, s, e); t.nextSeq <= t.base + c.windowSize
  {
    FillWithinWindow(c, s);
  }

  /** `nextSeq` is not bounded below by `base`. Three simulated timeouts for
      sequence number 1 -- one in the first round's fill, whose wait then
      times out, and one in the next fill -- slide the window to base 2 inside
      that fill while `nextSeq` is still 1. If that round's wait then brings
      anything but an ACK for base 2 or later, the next fill resends sequence
      number 1, below the window. */
  lemma NextSeqCanTrailBase(junk: Packet, p: Packet)
    requires p.flag != ACK || p.ackNum < 2
    ensures var c := Config([1, 1], 4, 5);
      var t := Round(c, Initial(junk), TimedOut);
      var f := Fill(c, t);
      var u := Round(c, t, Arrived(p));
      t.base == 1 && t.retries == 2 && f.base == 2 && f.nextSeq == 1 &&
      u.base == 2 && u.nextSeq == 1 && CanSend(c, u.base, u.nextSeq) &&
      |Fill(c, u).sent| > |u.sent| && Fill(c, u).sent[|u.sent|].seqNum == 1
  {
    var c := Config([1, 1], 4, 5);
    var t := Round(c, Initial(junk), TimedOut);
    var u := Round(c, t, Arrived(p));
    assert u == Fill(c, t);
    ResendsFirst(c, u);
  }

  /** A fill whose guard holds and whose next code is not a timeout sends
      `nextSeq` first. */
  lemma ResendsFirst(c: Config, s: SenderState)
    requires CanSend(c, s.base, s.nextSeq)
    requires ActionAt(c.script, s.actionIndex) != SIMULATE_TIMEOUT
    ensures |Fill(c, s).sent| > |s.sent| && Fill(c, s).sent[|s.sent|].seqNum == s.nextSeq
  {
    FillSends(c, s);
    FillUnfoldsOnSend(c, s);
    var action := ActionAt(c.script, s.actionIndex);
    var wire := WirePacket(action, s.nextSeq);
    var log := if action == SIMULATE_CORRUPT then s.log + [LogRecord(s.nextSeq, DataPayload(s.nextSeq))] else s.log;
    FillExtends(c, AfterSend(c, s, wire, log));
  }

  /** A third real timeout also leaves `nextSeq` below `base`: the wait sets
      `nextSeq` to `base` and then slides `base` forward, so the very next
      fill resends the packet just below the window. With window 1 and no
      fault script, three timed-out rounds give base 2, `nextSeq` 1, and the
      fourth round's fill sends sequence number 1 again. */
  lemma TimeoutTrailsBase(junk: Packet)
    ensures var c := Config([], 1, 5);
      var t := Transfer(c, Initial(junk), [TimedOut, TimedOut, TimedOut]);
      t.base == 2 && t.nextSeq == 1 && t.retries == 0 &&
      |Fill(c, t).sent| > |t.sent| && Fill(c, t).sent[|t.sent|].seqNum == 1
  {
    var c := Config([], 1, 5);
    var s0 := Initial(junk);
    var s1 := Round(c, s0, TimedOut);
    OneSlotRound(c, s0);
    var s2 := Round(c, s1, TimedOut);
    OneSlotRound(c, s1);
    var s3 := Round(c, s2, TimedOut);
    OneSlotRound(c, s2);
    assert [TimedOut, TimedOut, TimedOut][1..] == [TimedOut, TimedOut];
    assert [TimedOut, TimedOut][1..] == [TimedOut];
    assert Transfer(c, s0, [TimedOut, TimedOut, TimedOut]) == s3;
    ResendsFirst(c, s3);
  }

  /** With a one-packet window, no script left and `nextSeq == base`, a fill
      sends one packet, and a timed-out round counts one retry and returns
      `nextSeq` to the (possibly slid) base. */
  lemma OneSlotRound(c: Config, s: SenderState)
    requires c.windowSize == 1 && c.script == [] && s.nextSeq == s.base <= c.total
    ensures var t := Round(c, s, TimedOut);
      t.nextSeq == s.base && t.base == CountRetry(s).base && t.retries == CountRetry(s).retries &&
      t.sent == s.sent + [DataPacket(s.base)]
  {
    FillUnfoldsOnSend(c, s);
  }
  // ---------------------------------------------------------------------
  // Close

  /** The closing RST: seq `cur_seq`, ack `cur_ack`, the payload left in the buffer. */
  function Close(s: SenderState): (t: SenderState)
    ensures t.sent == s.sent + [t.out]
    ensures t.out.flag == RST && t.out.seqNum == CUR_SEQ && t.out.ackNum == CUR_ACK
    ensures t.out.payload == s.out.payload
    ensures t.(out := s.out, sent := s.sent) == s
  {
    var rst := s.out.(seqNum := CUR_SEQ, ackNum := CUR_ACK, flag := RST);
    s.(out := rst, sent := s.sent + [rst])
  }

  // ---------------------------------------------------------------------
  // The sender in place

  /** The sender's session: the locals of the program's `main` as fields,
      updated step by step. Every method is proved to do what the matching
      function above says, so the lemmas about those functions apply to it. */
  class Sender {
    var script: seq<int>
    var windowSize: int
    var total: int
    var base: int
    var nextSeq: int
    var retries: int
    var actionIndex: nat
    var out: Packet
    var sent: seq<Packet>
    var log: seq<LogRecord>

    function Settings(): Config
      reads this
    {
      Config(script, windowSize, total)
    }

    function State(): SenderState
      reads this
    {
      SenderState(base, nextSeq, retries, actionIndex, out, sent, log)
    }

    /** A sender holding the loaded fault script, before the handshake;
        `junk` is whatever the packet buffer holds before its first use. */
    constructor (script: seq<int>, junk: Packet)
      ensures Settings() == Config(script, 0, 0)
      ensures State() == Initial(junk)
    {
      this.script := script;
      windowSize, total := 0, 0;
      base, nextSeq, retries, actionIndex := 1, 1, 0, 0;
      out, sent, log := junk, [], [];
    }

    /** The handshake loop over the datagrams that arrive: answers every SYN
        with a SYN_ACK and stops at the first ACK. */
    method Handshake(incoming: seq<Packet>) returns (consumed: nat, established: bool)
      modifies this
      ensures Settings() == old(Settings())
      ensures (State(), consumed, established) == AwaitHandshake(old(State()), incoming)
    {
      consumed, established := 0, false;
      while consumed < |incoming|
        invariant consumed <= |incoming| && !established
        invariant Settings() == old(Settings())
        invariant var r := AwaitHandshake(State(), incoming[consumed..]);
          AwaitHandshake(old(State()), incoming) == (r.0, consumed + r.1, r.2)
      {
        var p := incoming[consumed];
        assert incoming[consumed..][1..] == incoming[consumed + 1..];
        consumed := consumed + 1;
        if p.flag == SYN {
          out := out.(seqNum := CUR_SEQ, ackNum := 0, flag := SYN_ACK);
          sent := sent + [out];
        } else if p.flag == ACK {
          established := true;
          break;
        }
      }
    }

    /** The two parameter datagrams, in this order: the window size, then the
        number of packets; then the transfer counters start at 1, 1, 0, 0. */
    method ReceiveParameters(windowPacket: Packet, totalPacket: Packet)
      modifies this
      ensures Settings() == Config(old(script), windowPacket.payload, totalPacket.payload)
      ensures State() == old(State()).(base := 1, nextSeq := 1, retries := 0, actionIndex := 0)
    {
      windowSize := windowPacket.payload;
      total := totalPacket.payload;
      base, nextSeq, actionIndex, retries := 1, 1, 0, 0;
    }

    /** The window-fill loop, consuming one fault code per attempt. */
    method FillWindow()
      modifies this
      ensures Settings() == old(Settings())
      ensures State() == Fill(Settings(), old(State()))
    {
      while nextSeq < base + windowSize && nextSeq <= total
        invariant Settings() == old(Settings())
        invariant Fill(Settings(), State()) == Fill(Settings(), old(State()))
        decreases total - nextSeq
      {
        ghost var before := State();
        out := DataPacket(nextSeq);
        var action := 0;
        if actionIndex < |script| {
          action := script[actionIndex];
          actionIndex := actionIndex + 1;
        }
        assert action == ActionAt(script, before.actionIndex);
        if action == SIMULATE_TIMEOUT {
          retries := retries + 1;
          if retries >= MAX_RETRIES {
            base := base + 1;
            retries := 0;
          }
          break;
        } else if action == SIMULATE_CORRUPT {
          log := log + [LogRecord(nextSeq, out.payload)];
          out := out.(payload := CORRUPTED);
          sent := sent + [out];
          nextSeq := nextSeq + 1;
          FillUnfoldsOnSend(Settings(), before);
          assert State() == AfterSend(Settings(), before, out, log);
          continue;
        }
        sent := sent + [out];
        nextSeq := nextSeq + 1;
        FillUnfoldsOnSend(Settings(), before);
        assert State() == AfterSend(Settings(), before, out, log);
      }
    }

    /** The bounded wait timed out. */
    method OnTimeout()
      modifies this
      ensures Settings() == old(Settings())
      ensures State() == Timeout(old(State()))
    {
      nextSeq := base;
      retries := retries + 1;
      if retries >= MAX_RETRIES {
        base := base + 1;
        retries := 0;
      }
    }

    /** A datagram arrived within the wait. */
    method OnPacket(p: Packet)
      modifies this
      ensures Settings() == old(Settings())
      ensures State() == Acknowledge(old(State()), p)
    {
      if p.flag == ACK {
        if p.ackNum >= base {
          base := p.ackNum + 1;
          retries := 0;
        }
      }
    }

    /** The transfer loop: while `base <= total`, fill the window and handle
        the next wait outcome. Stops early only once `base > total`. */
    method RunTransfer(events: seq<WaitOutcome>) returns (consumed: nat)
      modifies this
      ensures Settings() == old(Settings())
      ensures State() == Transfer(Settings(), old(State()), events)
      ensures consumed <= |events| && (consumed < |events| ==> base > total)
    {
      consumed := 0;
      while base <= total && consumed < |events|
        invariant consumed <= |events|
        invariant Settings() == old(Settings())
        invariant Transfer(Settings(), State(), events[consumed..]) == Transfer(Settings(), old(State()), events)
        decreases |events| - consumed
      {
        assert events[consumed..][1..] == events[consumed + 1..];
        FillWindow();
        match events[consumed] {
          case TimedOut => OnTimeout();
          case Arrived(p) => OnPacket(p);
        }
        consumed := consumed + 1;
      }
    }

    /** The closing RST, sent once the transfer loop has ended. */
    method SendReset()
      requires base > total
      modifies this
      ensures Settings() == old(Settings())
      ensures State() == Close(old(State()))
    {
      out := out.(seqNum := CUR_SEQ, ackNum := CUR_ACK, flag := RST);
      sent := sent + [out];
    }
  }
}
