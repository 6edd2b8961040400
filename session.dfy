/** What follows from running the two programs against each other: the
    sender's SYN_ACK carries sequence number 1, the receiver starts counting
    from it, and so its in-order window is one ahead of the sender's numbering. */
module Session {
  import opened Packets
  import Server
  import Client

  /** The receiver state right after the handshake with the sender and the
      parameter exchange. */
  function ClientAfterHandshake(tc: Client.TestCase, junkS: Packet, junkC: Packet): Client.ReceiverState
  {
    var start := Client.Connect(junkC);
    var server := Server.HandshakeReply(Server.Initial(junkS), start.out);
    Client.Parameters(tc, Client.AckSynAck(start, server.sent[0]))
  }

  /** The sender answers the receiver's SYN with a SYN_ACK that ends the
      receiver's wait and has sequence number 1; the receiver takes it as its
      `curAck`, so the only data packet it will accept next is number 2. But
      the sender's first data packet is number 1: the receiver counts it and
      drops it. */
  lemma FirstDataPacketDropped(tc: Client.TestCase, junkS: Packet, junkC: Packet, c: Server.Config)
    requires 1 <= c.windowSize && 1 <= c.total
    requires Server.ActionAt(c.script, 0) != Server.SIMULATE_TIMEOUT
    ensures var start := Client.Connect(junkC);
      var server := Server.HandshakeReply(Server.Initial(junkS), start.out);
      |server.sent| == 1 && Client.IsSynAck(server.sent[0]) && server.sent[0].seqNum == 1
    ensures var client := ClientAfterHandshake(tc, junkS, junkC);
      client.curAck == 1 && client.goodCount == 0 && client.connAlive &&
      forall p: Packet :: p.flag != RST ==> (Client.Accepts(client, p) <==> p.seqNum == 2)
    ensures var start := Client.Connect(junkC);
      var server := Server.HandshakeReply(Server.Initial(junkS), start.out);
      var f := Server.Fill(c, server);
      var client := ClientAfterHandshake(tc, junkS, junkC);
      |f.sent| > 1 && f.sent[1].seqNum == 1 && f.sent[1].flag == ACK &&
      !Client.Accepts(client, f.sent[1]) && Client.Deliver(tc, client, f.sent[1]).goodCount == 0
  {
    var start := Client.Connect(junkC);
    var server := Server.HandshakeReply(Server.Initial(junkS), start.out);
    var action := Server.ActionAt(c.script, 0);
    var wire := Server.WirePacket(action, 1);
    var log := if action == Server.SIMULATE_CORRUPT then server.log + [Server.LogRecord(1, DataPayload(1))] else server.log;
    Server.FillUnfoldsOnSend(c, server);
    Server.FillExtends(c, Server.AfterSend(c, server, wire, log));
    Server.FillSends(c, server);
    var f := Server.Fill(c, server);
    assert Server.SentAt(c, server, 0, f.sent[1]);
  }

  /** The receiver's `curAck` stays one ahead of its good-packet count. While
      every data packet it sees is numbered at most the packet count it
      asked for -- as every packet from a sender with that count is -- it
      never reaches the count, so its success stop never fires: only an RST
      ends its loop. */
  lemma {:induction false} SuccessNeedsRst(tc: Client.TestCase, s: Client.ReceiverState, ps: seq<Packet>)
    requires s.curAck - s.goodCount == 1 && s.curAck <= tc.byteRequest
    requires s.connAlive
    requires forall i :: 0 <= i < |ps| && ps[i].flag != RST ==> ps[i].seqNum <= tc.byteRequest
    ensures var t := Client.Receive(tc, s, ps);
      t.goodCount < tc.byteRequest &&
      ((forall i :: 0 <= i < |ps| ==> ps[i].flag != RST) ==> t.connAlive)
    decreases |ps|
  {
    if ps != [] {
      var d := Client.Deliver(tc, s, ps[0]);
      if d.connAlive {
        SuccessNeedsRst(tc, d, ps[1..]);
        assert forall i :: 1 <= i < |ps| ==> ps[i] == ps[1..][i - 1];
      }
    }
  }

  /** Every data packet a sender with `total` packets puts on the wire during
      a fill is numbered at most `total`, so `SuccessNeedsRst` applies when
      the receiver asked for `total` packets. */
  lemma FillStaysBelowTotal(c: Server.Config, s: Server.SenderState)
    ensures var f := Server.Fill(c, s);
      forall k :: |s.sent| <= k < |f.sent| ==> f.sent[k].flag == ACK && f.sent[k].seqNum <= c.total
  {
    Server.FillSends(c, s);
  }
}
