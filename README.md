# Go-Back-N ARQ session engine, modelled in Dafny

Two C programs run a small Go-Back-N protocol over UDP. The server is the sender: it answers a three-way handshake and reads the window size N and the packet count S from two datagrams. It then streams packets 1..S through a sliding window, with a scripted fault injector that can simulate a timeout or a corrupted packet. When the transfer is over it sends one RST. The client is the receiver: it opens the handshake and sends N and S. It then accepts data strictly in order, sends a cumulative ACK for each packet it accepts, and stops on RST or once it has S good packets.

This project models the session logic of both programs. The sockets and the clock are replaced by explicit inputs: the datagrams that arrive, and whether each wait timed out.

- `packets.dfy` (`Packets`): the packet record, the four flags, C's truncating `%`, and the data letter `'A' + ((n-1) % 26)`.
- `script.dfy` (`Script`): loading the fault script into the fixed 255-entry buffer. Both programs' loop orders are modelled, as traces of the buffer slots each one writes.
- `server.dfy` (`Server`): each loop of the sender is a function on a `SenderState` value: handshake reply, window fill, timeout, ACK handling, round, transfer loop and RST. Lemmas prove what each one does. Class `Sender` keeps the program's locals as fields and runs the same loops in place (`Handshake`, `ReceiveParameters`, `FillWindow`, `OnTimeout`, `OnPacket`, `RunTransfer`, `SendReset`). Each method is proved to end in exactly the state its function gives.
- `client.dfy` (`Client`): the same pattern for the receiver: SYN, handshake wait, parameter packets, the per-datagram step `Deliver`, and the receive loop, with class `Receiver`.
- `session.dfy` (`Session`): facts about the two programs run against each other.

Where the protocol's prose description and the code disagree, the model follows the code:

- The corrupt path's `continue` re-tests the window guard, so corrupted sends stay inside the window like normal ones (`Server.FillSends`).
- `next_seq >= base` is not an invariant, in two ways.
  - The third real timeout sets `next_seq = base` and only then slides `base` forward. `next_seq` is left at `base - 1`, and the very next fill resends that packet, below the window (`Server.TimeoutTrailsBase`).
  - A forced slide inside the fill loop also leaves `next_seq` below `base`. A timed-out wait after it resets `next_seq` to the new `base`. But if the wait brings a stale ACK or a datagram that is not an ACK, the next fill resends packets below the window (`Server.NextSeqCanTrailBase`).
  - Only the upper bound `next_seq <= base + N` holds, for any N >= 0, across fills and whole rounds (`Server.FillWithinWindow`, `Server.RoundWithinWindow`).
- The SYN_ACK carries `cur_seq = 1`, and the client copies it into `cur_ack`. The client therefore accepts packet 2 first and drops the server's packet 1 (`Session.FirstDataPacketDropped`). Its good count stays one below `cur_ack`. While the data it sees is numbered at most S, the count never reaches S, so the client's own success stop never fires and only the RST ends its loop (`Session.SuccessNeedsRst`). So in a fault-free run with S=5 the client delivers fewer than 5 packets: at most 4.
- On RST the verdict is "passed" exactly when the number of datagrams received equals the number of script entries, whatever the good count (`Client.Deliver`).
- The bound "good packets never exceed S" holds only for S >= 1. For S = 0 the success test first runs when the count is already 1 (`Client.ZeroRequestOvershoots`).
- The transfer loop terminates under timeouts. Its rank is 3·(S - base) + (2 - retries), which is non-negative exactly while the loop runs. Each timeout, whether simulated or real, lowers the rank by exactly one. From the start, S·3 timed-out rounds always end the loop (`Server.TimeoutsFinish`). Arriving stale ACKs or non-ACK datagrams do not lower the rank, so the loop can keep running while only those arrive.

## Model

| member | source | states |
|---|---|---|
| `Packets.CRem` | udp_server.c:141 | C's `%` goes with the quotient truncated toward zero: `(a / b) * b + a % b == a`, the result has the dividend's sign and a magnitude below the divisor, and it equals Dafny's `%` for non-negative dividends |
| `Packets.CRemOdd` | udp_server.c:141 | C's remainder is odd in the dividend, so for a negative dividend it is minus the remainder of the magnitude, and it differs from Dafny's Euclidean `%` whenever it is negative |
| `Packets.DataPayload` | udp_server.c:141 | the letter for sequence number n >= 1 lies in 'A'..'Z' and is never the corruption marker '?' |
| `Script.ReadBoundFirst` | udp_server.c:41-46 | the server's loop, bound tested before each read: the count never falls and grows by at most the number of tokens, with one store per counted token |
| `Script.ReadBoundAfter` | udp_client.c:38-43 | the client's loop as written, read before the bound test: the count never falls and grows by at most the number of tokens, and there may be one store more than the count grew by |
| `Script.BoundFirstInBounds` | udp_server.c:41-46 | testing `count < max` before each read writes exactly slots 0..count-1, all inside the buffer, and returns min(tokens, max) |
| `Script.LoadActions` | udp_server.c:41-46 | in place on the array: returns min(tokens, buffer length), copies that prefix of the tokens, and leaves the rest of the buffer unchanged |
| `Script.BoundAfterOverruns` | udp_client.c:38-43 | with the read before the bound test the count is still min(tokens, max), but with more tokens than slots the last store goes to index max, past the buffer |
| `Script.ClientOverrunExample` | udp_client.c:38-43 | 256 tokens with the 255-entry buffer make the client store into index 255 |
| `Client.LoadInput` | udp_client.c:25-44 | the receiver's test case: the number of script entries is min(tokens, buffer length), and those entries are copied into the buffer |
| `Server.HandshakeReply` | udp_server.c:102-113 | a SYN gets exactly one reply, a SYN_ACK with seq `cur_seq` = 1 and ack 0; any other datagram gets none; nothing but the packet buffer and the wire changes |
| `Server.AwaitHandshake` | udp_server.c:98-114 | the handshake loop consumes at most the datagrams given; when established, the last one consumed is the ACK; otherwise it consumed them all |
| `Server.HandshakeOutcome` | udp_server.c:98-114 | the loop ends exactly at the first ACK (established iff an ACK arrives); before it, exactly one SYN_ACK(1, 0) is sent per SYN and nothing else changes |
| `Server.Sender.Handshake` | udp_server.c:98-114 | the in-place loop ends in the state, count and outcome that `AwaitHandshake` gives |
| `Server.Sender.constructor` | udp_server.c:93-95 | the sender starts with the loaded script, base = next_seq = 1, no retries, nothing sent or logged |
| `Server.Sender.ReceiveParameters` | udp_server.c:116-130 | the first datagram's payload becomes the window size and the second's the packet count; the counters restart at 1, 1, 0, 0 |
| `Server.NextIndex` | udp_server.c:143 | consuming a fault code never moves the action index past the end of the script |
| `Server.ActionShift` | udp_server.c:143 | attempt k after one consumed code draws the same code as attempt k+1 from before it; once the script is exhausted every attempt draws 0 |
| `Server.CountRetry` | udp_server.c:147-152 | a retry keeps `retries` in 0..2; either base is unchanged and retries grows by one, or base grows by one and retries is 0; the rank drops by exactly one |
| `Server.Fill` | udp_server.c:137-170 | the window-fill loop never lowers `next_seq` or `base` |
| `Server.FillExtends` | udp_server.c:137-170 | a fill only appends to the wire, exactly one packet per advance of `next_seq` |
| `Server.FillSends` | udp_server.c:137-170 | the k-th appended packet is numbered next_seq + k, was drawn with a non-timeout code, lies inside the window of the starting base and at most S, and carries its letter, or '?' exactly when its code is 2 |
| `Server.FillLogs` | udp_server.c:154-158 | the log grows by exactly one (seq, original letter) record per corrupted packet sent, in sending order |
| `Server.FillStops` | udp_server.c:137-153 | with n packets sent, the fill either stops because the guard fails (base and retries unchanged, n codes consumed) or because code n is 1 with the guard still true (that code consumed too, one retry counted, forced slide on the third); the index never passes the end of the script |
| `Server.FillKeeps` | udp_server.c:135-170 | a fill keeps base >= 1, next_seq >= 1, retries in 0..2 and the index within the script; it never lowers base; it lowers the rank by exactly one when it stops on a simulated timeout and leaves it unchanged otherwise |
| `Server.FillWithinWindow` | udp_server.c:137 | next_seq <= base + N is preserved by a fill |
| `Server.RoundWithinWindow` | udp_server.c:135-199 | for N >= 0, next_seq <= base + N is preserved by a whole round, timeout or arrival |
| `Server.NextSeqCanTrailBase` | udp_server.c:145-153 | script [1,1], N=4, S=5: after one timed-out round, the next fill slides base to 2 while next_seq is 1; if that wait brings anything but an ACK for 2 or later, base stays 2, next_seq 1, and the next fill sends packet 1 first |
| `Server.ResendsFirst` | udp_server.c:137-170 | a fill whose guard holds and whose next code is not a timeout sends packet `next_seq` first |
| `Server.TimeoutTrailsBase` | udp_server.c:179-187 | window 1, no script, S=5: three timed-out rounds leave base 2 and next_seq 1, and the next fill sends packet 1 again |
| `Server.OneSlotRound` | udp_server.c:135-187 | with window 1, no script left and next_seq = base, a timed-out round sends packet `base` once, counts one retry and returns next_seq to the old base |
| `Server.Sender.FillWindow` | udp_server.c:137-170 | the in-place loop, with `break` and `continue` as written, ends in exactly the state `Fill` gives |
| `Server.Timeout` | udp_server.c:179-187 | a timeout resets next_seq to base and counts a retry: retries stays in 0..2; base moves by one only on the third retry, which resets retries to 0; the rank drops by exactly one; nothing else changes |
| `Server.Sender.OnTimeout` | udp_server.c:179-187 | in place, the new state is `Timeout` of the old |
| `Server.Acknowledge` | udp_server.c:188-197 | base never decreases, and it moves iff the datagram is an ACK with ack >= base; it then becomes ack + 1 with retries 0; otherwise nothing changes |
| `Server.Sender.OnPacket` | udp_server.c:188-197 | in place, the new state is `Acknowledge` of the old |
| `Server.Round` | udp_server.c:135-199 | one round of the transfer loop never lowers base, and a timeout returns next_seq to the base the fill left |
| `Server.RoundKeeps` | udp_server.c:135-199 | a round keeps the invariant, never lowers base and never raises the rank; a timeout lowers it by one below the fill's, and an ACK for the current base or later lowers it too |
| `Server.RankSign` | udp_server.c:135 | under the invariant the loop condition base <= S holds exactly when the rank is non-negative |
| `Server.InitialRank` | udp_server.c:127-131 | the start state satisfies the invariant, with rank 3·S - 1 |
| `Server.Transfer` | udp_server.c:135-199 | the transfer loop never lowers base, and does nothing once base > S or when no wait outcomes are given |
| `Server.TransferKeeps` | udp_server.c:135-199 | across the transfer loop the invariant holds, base never decreases, the rank never rises, and the wire is only appended to |
| `Server.TimeoutsFinish` | udp_server.c:135-199 | rank + 1 timed-out rounds end the loop with base > S, whatever the fault script; from the start that is 3·S rounds |
| `Server.Sender.RunTransfer` | udp_server.c:135-199 | the in-place loop ends in the state `Transfer` gives, and stops before the outcomes run out only once base > S |
| `Server.Close` | udp_server.c:201-206 | exactly one packet is appended: an RST with seq 1 and ack 3, keeping the buffer's payload; nothing else changes |
| `Server.Sender.SendReset` | udp_server.c:201-206 | in place, once base > S, the new state is `Close` of the old |
| `Client.Connect` | udp_client.c:80-83 | the session starts with exactly one packet on the wire, a SYN with seq 0 and ack 0 |
| `Client.Receiver.constructor` | udp_client.c:57-83 | the receiver holds its loaded test case and has sent its SYN |
| `Client.FirstSynAck` | udp_client.c:86-93 | the wait ends iff some datagram is a SYN_ACK with ack 0, and it ends at the first one; every earlier datagram is discarded |
| `Client.AckSynAck` | udp_client.c:95-98 | the handshake ACK has seq 1 and echoes the SYN_ACK's seq as its ack; nothing else changes |
| `Client.Receiver.AwaitSynAck` | udp_client.c:86-98 | the in-place wait consumes up to and including the first SYN_ACK with ack 0 and then sends `AckSynAck`; with none it consumes everything and changes nothing |
| `Client.Parameters` | udp_client.c:102-115 | two packets follow, with seq +1 and +2 and the same ack and flag, carrying N and then S; cur_ack starts at that ack, both counters at 0 |
| `Client.Receiver.SendParameters` | udp_client.c:102-115 | in place, the new state is `Parameters` of the old |
| `Client.Deliver` | udp_client.c:119-150 | every datagram is counted; cur_ack - good_count is unchanged; a non-RST datagram numbered cur_ack + 1 advances both by one and is answered by an ACK numbered one past the previous send and acknowledging the new cur_ack, and anything else sends nothing; RST ends the loop with "passed" iff the receive count equals the number of script entries; an acceptance that brings good_count to S ends it with "passed" |
| `Client.Receiver.OnPacket` | udp_client.c:119-150 | while the connection is alive, the new state is `Deliver` of the old |
| `Client.Receive` | udp_client.c:117-153 | the receive loop counts at most one datagram per datagram given, and does nothing once the connection has ended |
| `Client.ReceiveKeepsGap` | udp_client.c:117-153 | over the receive loop cur_ack - good_count is unchanged and both only grow; exactly one ACK is sent per accepted datagram, each acknowledging a number past the starting cur_ack |
| `Client.ReceiveWithinRequest` | udp_client.c:135-147 | for S >= 1, good_count never exceeds S, and is below S while the loop runs |
| `Client.ZeroRequestOvershoots` | udp_client.c:135-147 | for S = 0 an acceptance leaves good_count at 1 and the loop still running |
| `Client.ReceiveVerdict` | udp_client.c:117-153 | the loop is running exactly while no verdict is given; while it runs every datagram was counted; "passed" means good_count reached S or the receive count equals the number of script entries |
| `Client.Receiver.ReceiveLoop` | udp_client.c:117-153 | the in-place loop ends in the state `Receive` gives, and stops before the datagrams run out only when the connection has ended |
| `Session.FirstDataPacketDropped` | udp_client.c:95-135 | the server's SYN_ACK (udp_server.c:94,104) has seq 1 and ends the client's wait, so the client's cur_ack starts at 1 and it accepts only packet 2 next; the server's first data packet (udp_server.c:128,138) is number 1, and the client counts it and drops it |
| `Session.SuccessNeedsRst` | udp_client.c:135-147 | with cur_ack one ahead of good_count and every data packet numbered at most S, good_count stays below S, so without an RST the loop never ends |
| `Session.FillStaysBelowTotal` | udp_server.c:137 | every data packet a fill sends is an ACK-flagged packet numbered at most S |

## Findings

| source | as written | input that shows it | evidently intended | confidence | as-written member | corrected member |
|---|---|---|---|---|---|---|
| udp_client.c:39 | `fscanf(file, "%d", &buf[count]) != EOF && count < max_bufsz`: the read stores into `buf[count]` before the bound is tested | a test file with 256 integers after the header; the 256th is stored into `packet_actions[255]`, one past the 255-entry array | test `count < max_bufsz` first, as udp_server.c:42 does, so no store leaves the buffer | not executed | `Script.BoundAfterOverruns` | `Client.LoadInput` |

## Left out

- Sockets: `socket`, `bind`, `sendto`, `recvfrom` and address set-up. A send is an append to the `sent` sequence and a receive is an argument.
- `select` with its 2-second timer. The outcome of each wait is an explicit `WaitOutcome` argument, `TimedOut` or `Arrived(p)`.
- The blocking loops that would wait for ever: the handshake loops and the receive loop run over a finite list of datagrams and report how many they consumed and whether they finished.
- File handling and output: `fopen`, `fscanf` of the header, its failure paths and the exit codes, `atoi` and `argc`, every `printf`. The corrupted-packet log is the `log` sequence of records, not formatted text. The printed delivered count (`good_count+1` on RST) is output only.
- Tokens that are not integers: `fscanf` then returns 0 rather than `EOF`, and the loader keeps counting. The tokens are taken as an already-parsed integer list.
- The raw `struct` wire layout: host byte order, padding and `sizeof(Packet)`.
- `char` payload conversions: `payload = window_size` and `(int)recv_packet.payload` truncate to a `char` whose signedness depends on the platform. The payload is kept as an unbounded integer.
- 32-bit `int` overflow in `base = ack + 1`, `next_seq++` and the client's counters. All arithmetic is unbounded.
- The client's `action_index` counter: it is incremented but never read.
- Memory left uninitialised by C (the packet buffer before its first send) is a `junk` argument. Its payload travels on into the SYN_ACK and the handshake ACK, as in the program. The RST carries whatever payload the buffer last held: the junk payload only if no data packet was ever built, otherwise the last letter built or '?'.
