# Verified models of four distributed protocols

This project models the concurrent cores of a distributed-systems code base written in Go, and proves what
they are for:

* **LSP**, a reliable transport over an unreliable network: one endpoint (`LspEndpoint`, `LspMachine`), its
  window (`LspWindow`, `LspScan`), its retransmission schedule (`LspBackoff`), two endpoints and a network
  (`LspChannel`), what keeps them going (`LspProgress`, `LspClock`), the server that multiplexes connections
  (`LspServer`, `LspServerMachine`, `LspServerRun`, `LspServerClose`), client and server together (`LspJoint`,
  `LspEndToEnd`) and the checksum (`Checksum`);
* a **Raft** peer and a group of peers (`RaftPeer`, `RaftSystem`), its elections and votes (`RaftElection`,
  `RaftVotes`), its logs (`RaftLog`), what is committed (`RaftTime`, `RaftComplete`, `RaftCommit`, `RaftReplicate`),
  and runs in which the code falls short of Raft (`RaftStale`, `RaftStaleReply`, `RaftStaleSend`, `RaftUnsafe`,
  `RaftUnsafeReply`);
* the last-writer-wins **gossip** of a key-value store (`GossipActor`, `GossipSystem`, `GossipSane`,
  `GossipConverge`, `GossipTermination`, `GossipSettles`, `GossipTiming`);
* the **scheduler** of a mining service and its miner (`Scheduler`, `SchedulerHeld`, `SchedulerRun`,
  `SchedulerTally`, `SchedulerWork`, `SchedulerTold`, `SchedulerAnswer`, `SchedulerAgain`,
  `SchedulerRepeat`, `SchedulerTwoClients`, `Mining`).

`Collections` has facts about sets, sequences and maps that several of them use.

Each component has the same layers. A value type holds the state, and functions say what each operation does
to it. A class with the fields of the implementation performs the operations in place, with its loops, and
every method is proved to have the effect of the function. A run is a sequence of states and of steps in any
order, and the theorems hold in every state of every run.

`dafny verify dfyconfig.toml` checks everything.

## How the code is read

* LSP: messages stay in the network for ever and may arrive any number of times, cut, lengthened or with
  one byte changed; the network layer of the repository changes the first. The model starts from a connection
  that is set up. Peers may also send cumulative acknowledgements, which this implementation only receives.
  Clocks are epochs.
* The noise function of `lsp_reference.go` is proved to be 0 and then left out.
* Initial sequence numbers are not negative, and a Connect with a negative one is ignored, where the code opens
  a connection. For negative ones the scan for the oldest unacked number can go wrong, because it takes 0 for
  "not set" (`LspScan.ScanRightIff` says exactly when), and the acknowledgement of number 0 is taken for a
  reminder and ignored (`LspScan.ZeroStays`).
* Raft: a step is one locked section, and a message is what it was when it was built. Three tests are made in
  one locked section and acted on in another: the term at the hand-over to leader, the higher term of a reply,
  and leadership when a message is built. The theorems need less than that they still hold (`NotStale`): a
  hand-over or a step down must be `Backed`, by the campaigns and votes of the peer itself, and a message built by
  a leader (`StillLeads`). This is exact for the invariants (`RaftElection.BackedIff`, `RaftLog.LogSafeIff`), and
  `RaftStale`, `RaftStaleReply` and `RaftStaleSend` have runs in which it fails.
* In three more places the code is not Raft, and Leader Completeness and State Machine Safety fail: a vote may go
  to a candidate one entry shorter, a message cuts off entries behind it that do not contradict it, and a reply is
  counted in whatever term the peer is by then. `RaftUnsafe` and `RaftUnsafeReply` have a run against each, in which
  a leader lacks what is committed and no other rule is broken. A proper run is one in which none of the tests above
  is stale; it is fair if also votes go to candidates that are not shorter (`FairVote`) and no accepted message cuts
  (`NoCut`), and careful if also replies are processed in the term of their message (`InTerm`). Each is a test that
  the peer could make before the step.
* Gossip: messages are not lost and arrive in any order, except that an actor handles its own introduction
  before those of other servers, which comes from the order in its mailbox. Every Put has a uid of its own,
  because each uses a new channel. Per key there is one hypothesis on runs (`WellTimed`), that no step does harm,
  and it is exact (`HarmlessIff`): a Put, which overwrites without comparing, is at least as new as earlier ones
  made there and as what a neighbour relies on, and an actor that learns of a newer server has not passed the
  key on to others only. `GossipTiming` has a run against either half. Servers but the first know at least one
  earlier server; the documentation asks for all.
* Scheduler: arithmetic is modulo 2^64. Hypotheses on runs: a connection is a miner's or a client's, a client
  asks once, for a range that is not empty and ends 10000 below 2^64, results come from working miners, and the
  server has not crashed. It crashes on losing a miner that its client's task does not list
  (`SchedulerWork.Crashes`), which takes a client that left before. The hash function is arbitrary; for the
  answers it is not 0 on the range, since 0 marks "no result yet". When a client leaves, the code drops only
  its first waiting request; the model does the same.

## Model

| member | source | states |
|---|---|---|
| `LspChannel.FifoTheorem` | p1-distributed-bitcoin-miner/src/github.com/cmu440/lsp/lsp_reference.go:140-271 | In every state of every run of two endpoints over a network that drops, delays, duplicates, reorders and damages messages, what each side delivered (and what its user read) is a prefix of what the other side wrote |
| `LspChannel.CloseTheorem` | p1-distributed-bitcoin-miner/src/github.com/cmu440/lsp/lsp_reference.go:480-489 | Whenever Close has returned success, the peer has delivered exactly everything that was written |
| `LspChannel.AllAckedDelivered` | p1-distributed-bitcoin-miner/src/github.com/cmu440/lsp/lsp_reference.go:317-319 | An endpoint with nothing queued and nothing outstanding has had all it wrote delivered, in every state the channel invariant allows |
| `LspChannel.ReleasedMeansReceived` | p1-distributed-bitcoin-miner/src/github.com/cmu440/lsp/lsp_reference.go:184-242 | Every number that was sent and is no longer held as unacked has been received by the peer, in every state of every run |
| `LspChannel.WindowsAgreeTheorem` | p1-distributed-bitcoin-miner/src/github.com/cmu440/lsp/lsp_reference.go:169-200 | Every data message ever sent, however delayed, passes the receiver's window and checksum tests if the receiver's window is at least the sender's |
| `LspChannel.NeverOutOfWindow` | p1-distributed-bitcoin-miner/src/github.com/cmu440/lsp/lsp_reference.go:174-176 | The number of a sent data message is below the next expected one plus the window |
| `LspChannel.DamageHarmless` | p1-distributed-bitcoin-miner/src/github.com/cmu440/lspnet/conn.go:154-189 | A data message with bytes added behind it has the effect of the message that was sent; one that was cut, or changed in any one byte, has none but that it may count as a sign of life |
| `LspProgress.DataAcknowledged` | p1-distributed-bitcoin-miner/src/github.com/cmu440/lsp/lsp_reference.go:169-184 | In every run, when a data message that the peer sent arrives intact, an acknowledgement of its number is among the messages sent in the next state and its payload is received, also for numbers below the next expected one, if and only if it is within the window, which it always is when the windows agree; otherwise it is ignored |
| `LspProgress.OutstandingWasSent` | p1-distributed-bitcoin-miner/src/github.com/cmu440/lsp/lsp_reference.go:251-271 | In every state of every run, every message that a side holds as unacked has been sent |
| `LspProgress.CanFinishIff` | p1-distributed-bitcoin-miner/src/github.com/cmu440/lsp/lsp_reference.go:169-271 | From every state of every run in which Close has returned on neither side, the run can go on, with nothing more written, until the peer has delivered all that a side wrote and all is acknowledged, if and only if nothing was written or the sender's window, its limit on unacked messages and the receiver's window are all positive |
| `LspProgress.NothingDelivered` | p1-distributed-bitcoin-miner/src/github.com/cmu440/lsp/lsp_reference.go:169-176 | If one of these is zero, nothing is ever delivered |
| `LspChannel.OnAckKeeps` | p1-distributed-bitcoin-miner/src/github.com/cmu440/lsp/lsp_reference.go:202-242 | An acknowledgement the peer really sent keeps the channel invariant of its direction, refill included |
| `LspChannel.OnDataKeeps` | p1-distributed-bitcoin-miner/src/github.com/cmu440/lsp/lsp_reference.go:169-200 | Any copy of a sent data message keeps the channel invariant, whether it is new, old, buffered or out of order |
| `LspChannel.RunInv` | p1-distributed-bitcoin-miner/src/github.com/cmu440/lsp/lsp_reference.go:140-306 | Both directions keep the invariant over every run, including timer ticks, reads, writes and Close |
| `LspEndToEnd.EndToEnd` | p1-distributed-bitcoin-miner/src/github.com/cmu440/lsp/lsp_reference.go:751-790 | Client, network and server together: what the server's Read returned and will return for the client's connection are the first payloads the client wrote, in order, then one error if the connection was lost, and all of them once the client's Close has returned success, whatever other connections the server has |
| `LspEndToEnd.BackToClient` | p1-distributed-bitcoin-miner/src/github.com/cmu440/lsp/lsp_reference.go:910-957 | The other direction: what the client delivered and read are the first payloads written to its connection at the server, and all of them once the server's Close has returned nil and found the connection |
| `LspJoint.EventSide` | p1-distributed-bitcoin-miner/src/github.com/cmu440/lsp/lsp_reference.go:850-877 | Every event of the server does to a connection what the endpoint's own steps do, or nothing |
| `LspWindow.WindowTheorem` | p1-distributed-bitcoin-miner/src/github.com/cmu440/lsp/lsp_reference.go:140-271 | In every reachable state at most the maximum number of messages is unacked, they span less than one window, and nothing is left queued that both limits would let out |
| `LspWindow.CumulativeAckTheorem` | p1-distributed-bitcoin-miner/src/github.com/cmu440/lsp/lsp_reference.go:213-240 | A cumulative ack leaves the same state and sends the same messages as individual acks for all outstanding numbers up to it, in any order, although each of those refills the window in between |
| `LspWindow.RefillInBetween` | p1-distributed-bitcoin-miner/src/github.com/cmu440/lsp/lsp_reference.go:244-271 | Forgetting more numbers after a refill and refilling again equals forgetting all of them and refilling once |
| `LspBackoff.BackoffTheorem` | p1-distributed-bitcoin-miner/src/github.com/cmu440/lsp/lsp_reference.go:258-296 | On a live connection a message that stays unacked is sent again exactly at the epochs of the closed-form schedule |
| `LspClock.LostIff` | p1-distributed-bitcoin-miner/src/github.com/cmu440/lsp/lsp_reference.go:105-117 | In every run, a connection is lost if and only if no arrival was noted for as many epochs as the limit says |
| `LspClock.SignsOfLife` | p1-distributed-bitcoin-miner/src/github.com/cmu440/lsp/lsp_reference.go:279-306 | In every run, an epoch sends the acknowledgement of number 0 if and only if the endpoint is connected, will not be lost, and got no connection request or data in the epoch, and repeats the connection request if and only if it is not connected |
| `LspClock.ConnectedBy` | p1-distributed-bitcoin-miner/src/github.com/cmu440/lsp/lsp_reference.go:202-212 | In every run, the connection id is that of the first acknowledgement of the initial sequence number |
| `LspBackoff.GapLaw` | p1-distributed-bitcoin-miner/src/github.com/cmu440/lsp/params.go:28-31 | In every run, between two successive retransmissions of a message that stays unacked, after n earlier ones, exactly min(2^n, MaxBackOffInterval) epochs are skipped, never more than the maximum |
| `LspScan.ScanRightIff` | p1-distributed-bitcoin-miner/src/github.com/cmu440/lsp/lsp_reference.go:245-250 | The scan for the oldest unacked number, which takes 0 for "not set", finds the minimum in every map order if and only if it is not the case that 0 is the least of several unacked numbers |
| `LspScan.WrongOrder` | p1-distributed-bitcoin-miner/src/github.com/cmu440/lsp/lsp_reference.go:222-229 | When 0 is the least of several numbers there is an order of visit in which the scan is wrong |
| `LspScan.ZeroStays` | p1-distributed-bitcoin-miner/src/github.com/cmu440/lsp/lsp_reference.go:212-219 | Of the outstanding numbers, after any sequence of individual acknowledgements exactly 0 and those not acknowledged are left: number 0, which a negative initial number leads to, is never released |
| `LspEndpoint.Zero` | p1-distributed-bitcoin-miner/src/github.com/cmu440/lsp/lsp_reference.go:398-404 | The arithmetic noise added to many expressions is always 0 |
| `LspMachine.Endpoint.Client` | p1-distributed-bitcoin-miner/src/github.com/cmu440/lsp/lsp_reference.go:47-73 | A new client connection is in the fresh state that all runs start from, with its Connect message in the outbox |
| `LspMachine.Endpoint.Accepted` | p1-distributed-bitcoin-miner/src/github.com/cmu440/lsp/lsp_reference.go:75-103 | The server end of a connection starts in the fresh state under its id, with the acknowledgement in the outbox |
| `LspMachine.Endpoint.Write` | p1-distributed-bitcoin-miner/src/github.com/cmu440/lsp/lsp_reference.go:140-150 | Enqueues the payload and refills the window |
| `LspMachine.Endpoint.Read` | p1-distributed-bitcoin-miner/src/github.com/cmu440/lsp/lsp_reference.go:127-138 | Takes the oldest delivered payload; it must not be called when there is none |
| `LspMachine.Endpoint.LowerEdge` | p1-distributed-bitcoin-miner/src/github.com/cmu440/lsp/lsp_reference.go:245-250 | The map scan finds the least of the unacked numbers and the first unsent one |
| `LspMachine.Endpoint.SendAll` | p1-distributed-bitcoin-miner/src/github.com/cmu440/lsp/lsp_reference.go:251-271 | The sending loop goes on exactly while window and cap allow it |
| `LspMachine.Endpoint.Refill` | p1-distributed-bitcoin-miner/src/github.com/cmu440/lsp/lsp_reference.go:244-271 | The loop sends exactly as many queued payloads as window and cap allow, in order, with fresh backoff entries |
| `LspMachine.Endpoint.OnData` | p1-distributed-bitcoin-miner/src/github.com/cmu440/lsp/lsp_reference.go:169-200 | Drops, or acknowledges, buffers and drains in order; that the acknowledgement is sent is `LspProgress.DataAcknowledged` |
| `LspMachine.Endpoint.OnAck` | p1-distributed-bitcoin-miner/src/github.com/cmu440/lsp/lsp_reference.go:202-242 | Connection set-up, individual and cumulative acknowledgement, each followed by one refill |
| `LspMachine.Endpoint.ForgetUpTo` | p1-distributed-bitcoin-miner/src/github.com/cmu440/lsp/lsp_reference.go:221-236 | The deletion loop forgets exactly the unacked numbers up to the acknowledged one |
| `LspMachine.Endpoint.OnMessage` | p1-distributed-bitcoin-miner/src/github.com/cmu440/lsp/lsp_reference.go:152-167 | Dispatch by message type, with the effect of the handler and the note that something was heard |
| `LspMachine.Endpoint.Resend` | p1-distributed-bitcoin-miner/src/github.com/cmu440/lsp/lsp_reference.go:279-296 | The loop over the unacked map sends again exactly the messages that are due |
| `LspMachine.Endpoint.AgeAll` | p1-distributed-bitcoin-miner/src/github.com/cmu440/lsp/lsp_reference.go:279-296 | The same loop doubles or counts down every backoff entry exactly once |
| `LspMachine.Endpoint.Tick` | p1-distributed-bitcoin-miner/src/github.com/cmu440/lsp/lsp_reference.go:279-306 | One epoch: resends, ages the schedules, and reminds the peer when nothing was heard |
| `LspServerRun.ServerCloseTheorem` | p1-distributed-bitcoin-miner/src/github.com/cmu440/lsp/lsp_reference.go:751-790 | Server Close returns nil if and only if every connection open when it was called was removed with nothing queued or unacked and not lost, over every order of packets, ticks and calls |
| `LspServerRun.ReadOrderTheorem` | p1-distributed-bitcoin-miner/src/github.com/cmu440/lsp/lsp_reference.go:886-931 | For every connection, what Read returned and will return is its delivered payloads in order, then one error if it was lost, and nothing after it |
| `LspServerRun.TablesTheorem` | p1-distributed-bitcoin-miner/src/github.com/cmu440/lsp/lsp_reference.go:850-877 | The address and id tables stay inverse to each other, and ids are never reused |
| `LspServerClose.PromisesKept` | p1-distributed-bitcoin-miner/src/github.com/cmu440/lsp/lsp_reference.go:831-957 | Between two turns of the loop, in every run: no Read waits beside a result; a connection in the table is neither lost nor closed with everything acknowledged, and it is marked if and only if CloseConn or Close was called while it was there; one that is gone was lost, or was closed and had everything acknowledged; Close has been answered if and only if it was called and the table is empty |
| `LspServerClose.WriteTheorem` | p1-distributed-bitcoin-miner/src/github.com/cmu440/lsp/lsp_reference.go:798-818 | In every run, a write to a connection in the table becomes its next message if and only if neither CloseConn for it nor Close was called before; every other write changes nothing |
| `LspServerClose.ClosedNews` | p1-distributed-bitcoin-miner/src/github.com/cmu440/lsp/lsp_reference.go:933-957 | In every run, Read is told that the server is closed exactly once, and not before Close is answered |
| `LspServerRun.TurnKeeps` | p1-distributed-bitcoin-miner/src/github.com/cmu440/lsp/lsp_reference.go:755-790 | One turn of the server loop (event, drain, sweep, answers) keeps all of this |
| `LspServerMachine.Server.OnPacket` | p1-distributed-bitcoin-miner/src/github.com/cmu440/lsp/lsp_reference.go:850-877 | A packet of a known address goes to its connection; a Connect from a new one opens a connection unless the server is closing |
| `LspServerMachine.Server.Write` | p1-distributed-bitcoin-miner/src/github.com/cmu440/lsp/lsp_reference.go:798-818 | Reaches the connection unless it is unknown or closing, and reports an error otherwise |
| `LspServerMachine.Server.CloseConn` | p1-distributed-bitcoin-miner/src/github.com/cmu440/lsp/lsp_reference.go:831-848 | Marks the connection; the answers to the caller are an error for an unknown or already closing one, and both an error and success for a lost one |
| `LspServerMachine.Server.Close` | p1-distributed-bitcoin-miner/src/github.com/cmu440/lsp/lsp_reference.go:879-884 | Marks the server and all connections |
| `LspServerMachine.Server.Tick` | p1-distributed-bitcoin-miner/src/github.com/cmu440/lsp/lsp_reference.go:792-796 | The loop ticks every connection once |
| `LspServerMachine.Server.DrainInboxes` | p1-distributed-bitcoin-miner/src/github.com/cmu440/lsp/lsp_reference.go:886-899 | The nested loops empty every inbox into the read queue, keeping each connection's order, whatever order the table is walked in |
| `LspServerMachine.Server.Sweep` | p1-distributed-bitcoin-miner/src/github.com/cmu440/lsp/lsp_reference.go:910-931 | The loop removes exactly the lost and the finished connections from both tables and reports each unreported loss once |
| `LspServerMachine.Server.Finish` | p1-distributed-bitcoin-miner/src/github.com/cmu440/lsp/lsp_reference.go:933-957 | Close is answered once, when the last connection is gone, with an error if one was lost |
| `LspServerMachine.Server.HandOver` | p1-distributed-bitcoin-miner/src/github.com/cmu440/lsp/lsp_reference.go:959-970 | A waiting Read gets the oldest result |
| `LspServerMachine.Server.Read` | p1-distributed-bitcoin-miner/src/github.com/cmu440/lsp/lsp_reference.go:820-829 | The reader is remembered and answered at once if there is a result |
| `LspServerMachine.Server.Turn` | p1-distributed-bitcoin-miner/src/github.com/cmu440/lsp/lsp_reference.go:755-790 | One turn of the loop in place is a step of the modelled loop and keeps all its invariants |
| `Checksum.ByteChangeDetected` | p1-distributed-bitcoin-miner/src/github.com/cmu440/lsp/checksum.go:52-71 | Changing any one byte of the payload, at any index and for every length, changes the checksum, even where the 32-bit sum wraps around |
| `Checksum.ChunkSumAt` | p1-distributed-bitcoin-miner/src/github.com/cmu440/lsp/checksum.go:27-48 | Changing the byte at index i changes the sum of the chunks by the difference, times 1 at even and 256 at odd indexes |
| `Checksum.NumberChangeDetected` | p1-distributed-bitcoin-miner/src/github.com/cmu440/lsp/checksum.go:52-71 | Two sequence numbers below 65535 never get the same checksum on the same payload |
| `Checksum.HeaderCounts` | p1-distributed-bitcoin-miner/src/github.com/cmu440/lsp/checksum.go:10-24 | Header fields below 65536 enter the sum with exactly their values |
| `Checksum.FoldSum` | p1-distributed-bitcoin-miner/src/github.com/cmu440/lsp/checksum.go:60-66 | The fold loop takes at most two rounds and yields the representative of the sum modulo 65535, which is 0 only for 0 |
| `Checksum.FoldInjective` | p1-distributed-bitcoin-miner/src/github.com/cmu440/lsp/checksum.go:60-69 | Two sums fold to the same value if and only if both are 0, or neither is and they agree modulo 65535 |
| `Checksum.ByteArray2Checksum` | p1-distributed-bitcoin-miner/src/github.com/cmu440/lsp/checksum.go:27-48 | The loop adds the little-endian 16-bit chunks, padding an odd last byte, modulo 2^32 |
| `Checksum.CalculateChecksum` | p1-distributed-bitcoin-miner/src/github.com/cmu440/lsp/checksum.go:52-71 | The complement of the folded sum of header fields and payload, which `Checksum.ByteChangeDetected` and `Checksum.NumberChangeDetected` are about |
| `RaftElection.ElectionSafety` | p2-raft-consensus/src/github.com/cmu440/raft/raft.go:157-190 | In every run whose hand-overs to leader and steps down on a higher term are backed (the peer has a majority in its present term, or has given no vote in the term of the reply or later), two peers that ever lead in the same term, at whatever times, are the same peer |
| `RaftCommit.StateMachineSafety` | p2-raft-consensus/src/github.com/cmu440/raft/raft.go:623-662 | In every careful run (see above), whatever two peers have committed, at whatever two times, is the same, command for command, up to the last index that both have committed |
| `RaftComplete.LeaderCompleteness` | p2-raft-consensus/src/github.com/cmu440/raft/raft.go:157-190 | In every fair run, an entry that a majority accepted from the leader of its term is, with everything before it, in the log of every leader of a later term |
| `RaftCommit.LeadersHaveCommitted` | p2-raft-consensus/src/github.com/cmu440/raft/raft.go:623-662 | In every careful run, what anybody has committed is in the log of every leader from then on |
| `RaftCommit.CommitsIsCommitted` | p2-raft-consensus/src/github.com/cmu440/raft/raft.go:642-662 | What a leader commits by counting, a majority has really accepted from it in its term |
| `RaftCommit.CommitInv` | p2-raft-consensus/src/github.com/cmu440/raft/raft.go:258-264 | In every careful run, the commit index of every peer, leader or follower, is within its log and covers only what is committed |
| `RaftCommit.MatchInv` | p2-raft-consensus/src/github.com/cmu440/raft/raft.go:628-634 | In every careful run, what a leader takes its followers to hold, they have accepted in its term |
| `RaftReplicate.CanCommit` | p2-raft-consensus/src/github.com/cmu440/raft/raft.go:575-662 | From every state of every careful run: if a majority has seen no later term than the leader's, the run can go on until any command it takes is, with everything before it, in the logs of all of them and committed by all of them |
| `RaftReplicate.AloneNeverCommits` | p2-raft-consensus/src/github.com/cmu440/raft/raft.go:623-662 | A group of one peer never commits anything |
| `RaftUnsafe.ShorterElected` | p2-raft-consensus/src/github.com/cmu440/raft/raft.go:157-190 | Leaders can lack what is committed: a run of three peers whose only flaw is a vote for a candidate that is one entry shorter |
| `RaftUnsafe.HeartbeatCuts` | p2-raft-consensus/src/github.com/cmu440/raft/raft.go:249-257 | The same for a run whose only flaw is that a delayed heartbeat cuts off accepted entries |
| `RaftUnsafeReply.StaleReplyCounts` | p2-raft-consensus/src/github.com/cmu440/raft/raft.go:628-662 | The same for a run of five peers whose only flaw is that a reply from an earlier term is counted |
| `RaftVotes.VoteExactly` | p2-raft-consensus/src/github.com/cmu440/raft/raft.go:157-190 | In every run, a peer that is asked for its vote grants it if and only if its vote in that term is free and the last term of the candidate's log, when it stood, is higher than that of the peer's log, or equal with a log at most one entry shorter; its new state, and a refusal that reports its higher term |
| `RaftVotes.WhenCast` | p2-raft-consensus/src/github.com/cmu440/raft/raft.go:157-190 | In every run, every ballot goes back to a candidacy and a vote for which this holds |
| `RaftVotes.LeaderNotBehind` | p2-raft-consensus/src/github.com/cmu440/raft/raft.go:500-555 | In every run of backed steps, every leader stood exactly once in its term, and its log then was, in that sense, not behind those of a majority |
| `RaftElection.OneLeaderPerTerm` | p2-raft-consensus/src/github.com/cmu440/raft/raft.go:500-555 | Vote uniqueness and majority intersection: recorded leaders of one term are equal |
| `RaftElection.ElectionStep` | p2-raft-consensus/src/github.com/cmu440/raft/raft.go:223-240 | Every locked step that is backed keeps the voting record, although AppendEntries raises the term without clearing the vote |
| `RaftElection.BackedIff` | p2-raft-consensus/src/github.com/cmu440/raft/raft.go:536-555 | A step keeps the voting record and elected leaders if and only if it is backed |
| `RaftElection.NeverStaleIsBacked` | p2-raft-consensus/src/github.com/cmu440/raft/raft.go:536-551 | If at every hand-over the term is still the one whose votes were counted, and every higher term in a reply is above the present one, all steps are backed |
| `RaftLog.LogMatching` | p2-raft-consensus/src/github.com/cmu440/raft/raft.go:223-267 | In every run whose steps are backed and whose messages are built by leaders, two logs with an entry of the same index and term are identical up to it |
| `RaftLog.MergeYieldsSnapshot` | p2-raft-consensus/src/github.com/cmu440/raft/raft.go:249-257 | The skip, truncate and append loop leaves the follower's log equal to the sender's log when the message was built |
| `RaftLog.DeliveredLog` | p2-raft-consensus/src/github.com/cmu440/raft/raft.go:223-267 | A delivered AppendEntries leaves the log as it was or makes it the log its sender had |
| `RaftLog.LogStep` | p2-raft-consensus/src/github.com/cmu440/raft/raft.go:350-367 | Every such step keeps the invariant behind Log Matching |
| `RaftLog.LogSafeIff` | p2-raft-consensus/src/github.com/cmu440/raft/raft.go:536-611 | A step keeps that invariant if and only if it is backed and, if it builds a message, its peer leads |
| `RaftLog.SendStep` | p2-raft-consensus/src/github.com/cmu440/raft/raft.go:586-611 | A message is a piece of the log of its term's leader |
| `RaftStale.TwoLeaders` | p2-raft-consensus/src/github.com/cmu440/raft/raft.go:471-484 | Without the term test at the hand-over Election Safety fails: a run of three peers whose only stale step is the last gives term 2 two leaders |
| `RaftStaleReply.StepDownSafeIff` | p2-raft-consensus/src/github.com/cmu440/raft/raft.go:536-543 | After a run of backed steps, stepping down on a reply keeps the voting record and elected leaders if and only if the peer has given no vote in the term of the reply or a later one |
| `RaftStaleSend.SendSafeIff` | p2-raft-consensus/src/github.com/cmu440/raft/raft.go:575-611 | After such a run, a message keeps the invariant behind Log Matching if and only if its sender leads when it builds it |
| `RaftStaleReply.VotesTwice` | p2-raft-consensus/src/github.com/cmu440/raft/raft.go:536-543 | Nor without the comparison of a reply's term with the present one: in a run whose only stale step is a stepping down, a peer votes twice in term 2 and two peers lead it |
| `RaftStaleSend.LogsPartWays` | p2-raft-consensus/src/github.com/cmu440/raft/raft.go:575-611 | Log Matching fails without the test of leadership when a message is built: in a run with one such message two logs agree on the term of an entry but not on what is before it |
| `RaftStale.TwoLeadersLater` | p2-raft-consensus/src/github.com/cmu440/raft/raft.go:471-484 | The harm may come later: after the only stale step, a hand-over, no term has two leaders, and a hand-over that is not stale then gives term 2 its second one |
| `RaftStale.HandOverSafeIff` | p2-raft-consensus/src/github.com/cmu440/raft/raft.go:545-555 | After a run of backed steps, a hand-over keeps the voting record and elected leaders if and only if the peer has campaigned in its present term and has a majority of its votes |
| `RaftPeer.Peer.Elect` | p2-raft-consensus/src/github.com/cmu440/raft/raft.go:500-521 | A new campaign: next term, own vote, and the arguments of its vote requests |
| `RaftPeer.Peer.RequestVote` | p2-raft-consensus/src/github.com/cmu440/raft/raft.go:157-190 | The vote handler's new state and reply in all branches, which `RaftVotes.VoteExactly` states on logs |
| `RaftPeer.Peer.Lead` | p2-raft-consensus/src/github.com/cmu440/raft/raft.go:471-484 | The hand-over sets every nextIndex just past the log |
| `RaftPeer.Peer.PutCommand` | p2-raft-consensus/src/github.com/cmu440/raft/raft.go:350-369 | A leader appends the command under its term; anybody else does nothing |
| `RaftPeer.Peer.MergeLog` | p2-raft-consensus/src/github.com/cmu440/raft/raft.go:249-257 | The loop keeps exactly the entries that agree in term and replaces the rest |
| `RaftPeer.Peer.AppendEntries` | p2-raft-consensus/src/github.com/cmu440/raft/raft.go:223-267 | The handler's new state and reply in all branches |
| `RaftPeer.Peer.MakeAppend` | p2-raft-consensus/src/github.com/cmu440/raft/raft.go:586-609 | The message for a peer, heartbeat or entries |
| `RaftPeer.Peer.CountHolders` | p2-raft-consensus/src/github.com/cmu440/raft/raft.go:647-656 | The counting loop |
| `RaftPeer.Peer.AdvanceCommit` | p2-raft-consensus/src/github.com/cmu440/raft/raft.go:642-662 | The first entry of the present term past the commit index that a majority holds is committed |
| `RaftPeer.Peer.ProcessReply` | p2-raft-consensus/src/github.com/cmu440/raft/raft.go:628-662 | The reply's effect on nextIndex, matchIndex and commitIndex |
| `GossipConverge.Convergence` | p3-CMUD/src/github.com/cmu440/kvserver/query_actor.go:101-163 | In every state with no update or introduction in flight and all put lists empty, every actor of every server holds under the key a write whose time is at least that of every write of it and whose uid is the greatest, compared byte by byte, among those of its time, and holds nothing if there was none |
| `GossipConverge.Agreement` | p3-CMUD/src/github.com/cmu440/kvserver/query_actor.go:146-160 | In such a state any two actors hold the same content |
| `GossipConverge.Everywhere` | p3-CMUD/src/github.com/cmu440/kvserver/server.go:127-145 | Local lists and representatives connect all actors: what one actor holds in a quiet state, every actor holds |
| `GossipConverge.HarmlessIff` | p3-CMUD/src/github.com/cmu440/kvserver/query_actor.go:101-163 | After a well-timed run, a step keeps what neighbours rely on and what was written where it was made if and only if it is harmless: a Put at least as new as all earlier ones made there and as what a neighbour relies on, or an introduction before which the key is listed, on its way or there |
| `GossipConverge.PutHarmlessIff` | p3-CMUD/src/github.com/cmu440/kvserver/query_actor.go:101-106 | The exact condition for a Put, in any state |
| `GossipConverge.JoinHarmlessIff` | p3-CMUD/src/github.com/cmu440/kvserver/query_actor.go:162-163 | The exact condition for an introduction of a newer server |
| `GossipConverge.OrderedHarmless` | p3-CMUD/src/github.com/cmu440/kvserver/query_actor.go:101-106 | A stamp later than the entry it overwrites is enough for a Put |
| `GossipSettles.ComesToRest` | p3-CMUD/src/github.com/cmu440/kvserver/query_actor.go:130-160 | With N actors and P writes, more than N + 2 * N * P rounds (everything in flight delivered, every timer gone off) without a Put end with nothing in flight and all put lists empty |
| `GossipSettles.EventuallyConsistent` | p3-CMUD/src/github.com/cmu440/kvserver/query_actor.go:101-163 | After those rounds every actor holds, of every well-timed key, the write of the latest time and of the greatest uid among those of its time |
| `GossipConverge.EdgesStep` | p3-CMUD/src/github.com/cmu440/kvserver/query_actor.go:101-163 | Every message that is no Put of the key keeps: what an actor stores is still listed, or on its way to each neighbour, or there in the same or a newer version |
| `GossipTermination.GossipTerminates` | p3-CMUD/src/github.com/cmu440/kvserver/query_actor.go:130-160 | Once Puts stop, with N actors and P writes at most N * P entries are accepted and at most N + N * P broadcasts carry anything, in every run |
| `GossipTermination.Budget` | p3-CMUD/src/github.com/cmu440/kvserver/query_actor.go:130-160 | Accepted entries and non-empty broadcasts are paid for by (actor, write) pairs and put lists that are used up |
| `GossipSane.SaneInvariant` | p3-CMUD/src/github.com/cmu440/kvserver/query_actor.go:101-163 | In every run actors pass on exactly what they store, know their neighbours, and hold only what was written |
| `GossipTiming.SlowClock` | p3-CMUD/src/github.com/cmu440/kvserver/query_actor.go:101-106 | Without ordered stamps convergence fails: two actors come to rest, one with the write of time 10 and the other with that of time 5, after a Put stamped before the entry it overwrites |
| `GossipTiming.LateJoiner` | p3-CMUD/src/github.com/cmu440/kvserver/query_actor.go:162-163 | Without timely introductions convergence fails: a key that was passed on before the newer server was introduced never gets there |
| `GossipActor.NewerOnFields` | p3-CMUD/src/github.com/cmu440/kvserver/query_actor.go:146-160 | The later time wins whatever the uids; of equal times, the uid with the greater byte at the first position where they differ, or the longer one |
| `GossipActor.MergeOnFields` | p3-CMUD/src/github.com/cmu440/kvserver/query_actor.go:146-160 | Which of two entries of a key a merge keeps, in these terms, and that no key is lost or made up |
| `GossipActor.NewerTotal` | p3-CMUD/src/github.com/cmu440/kvserver/query_actor.go:153-159 | The order by time and uid never ties two writes of different uids |
| `GossipActor.AtLeastTransitive` | p3-CMUD/src/github.com/cmu440/kvserver/query_actor.go:153-159 | The order is transitive, uids being compared bytewise |
| `GossipSystem.NewServer` | p3-CMUD/src/github.com/cmu440/kvserver/server.go:84-147 | The loops introduce every local actor to all local actors and to the known representatives, and the new representative to each of them |
| `GossipActor.QueryActor.constructor` | p3-CMUD/src/github.com/cmu440/kvserver/query_actor.go:77-85 | A new actor stores and knows nothing |
| `GossipActor.QueryActor.Put` | p3-CMUD/src/github.com/cmu440/kvserver/query_actor.go:101-106 | Stores the entry under the present time without comparing, and lists it |
| `GossipActor.QueryActor.Intro` | p3-CMUD/src/github.com/cmu440/kvserver/query_actor.go:121-128 | Takes over the neighbour lists and sends the whole storage to every local actor |
| `GossipActor.QueryActor.RIntro` | p3-CMUD/src/github.com/cmu440/kvserver/query_actor.go:162-163 | Adds a remote neighbour |
| `GossipActor.QueryActor.Sync` | p3-CMUD/src/github.com/cmu440/kvserver/query_actor.go:130-144 | Sends the put list, if not empty, to all other local actors and the remote ones, and empties it |
| `GossipActor.QueryActor.Update` | p3-CMUD/src/github.com/cmu440/kvserver/query_actor.go:146-160 | The merge loop stores and lists exactly the entries that are new or win, whatever order the map is walked in |
| `SchedulerWork.Conservation` | p1-distributed-bitcoin-miner/src/github.com/cmu440/bitcoin/server/server.go:124-345 | For every connected client, in every state of every run, finished, assigned and queued ranges are together exactly the nonces it asked for |
| `SchedulerWork.NeverIdles` | p1-distributed-bitcoin-miner/src/github.com/cmu440/bitcoin/server/server.go:142-332 | Every joined miner that has not failed is in exactly one of the free and the working miners, free miners and waiting requests never coexist, and a connected client's task counts and lists exactly the miners that work for it |
| `SchedulerWork.Crashes` | p1-distributed-bitcoin-miner/src/github.com/cmu440/bitcoin/server/server.go:154-164 | In every run, losing a connection crashes the server if and only if it is a miner whose client's task no longer lists it, which is never so while the client is connected |
| `SchedulerWork.DepartedClient` | p1-distributed-bitcoin-miner/src/github.com/cmu440/bitcoin/server/server.go:137-164 | It does happen: a run of three events after which losing the miner crashes the server |
| `SchedulerTold.RightOrders` | p1-distributed-bitcoin-miner/src/github.com/cmu440/bitcoin/server/server.go:193-274 | In every state of every run, a miner that works for a connected client was last told that client's data and exactly the range that the client's task lists for it, which is within what the client asked for |
| `SchedulerTold.ToldInvariant` | p1-distributed-bitcoin-miner/src/github.com/cmu440/bitcoin/server/server.go:193-274 | The same of every task and every miner listed in it, also for clients that have left and ask no more |
| `SchedulerAnswer.LoneClientAnswer` | p1-distributed-bitcoin-miner/src/github.com/cmu440/bitcoin/server/server.go:279-344 | With one client, and miners that report the least hash of the last order they were sent, the result sent to the client is the least hash over the whole range it asked for, with a nonce of the range that attains it, whatever miners join and fail |
| `SchedulerAnswer.EveryAnswer` | p1-distributed-bitcoin-miner/src/github.com/cmu440/bitcoin/server/server.go:333-344 | With any number of clients, every result sent to a connected client is the least hash over the ranges that came in since its last one |
| `SchedulerAnswer.CompleteAnswer` | p1-distributed-bitcoin-miner/src/github.com/cmu440/bitcoin/server/server.go:333-344 | With any number of clients, a result that is about the whole range is its least hash, with a nonce of the range that attains it |
| `SchedulerAnswer.FirstAnswer` | p1-distributed-bitcoin-miner/src/github.com/cmu440/bitcoin/server/server.go:333-344 | With any number of clients, the first result sent to a client is the least hash over everything finished, and only what still waits in the queue is not |
| `SchedulerAnswer.AnswerDueIff` | p1-distributed-bitcoin-miner/src/github.com/cmu440/bitcoin/server/server.go:289-343 | A connected client is sent a result if and only if the miner that reports is the last one of its task and the next work is not its own |
| `SchedulerAnswer.IncompleteIff` | p1-distributed-bitcoin-miner/src/github.com/cmu440/bitcoin/server/server.go:289-343 | A result leaves a nonce of the range out if and only if it goes out while the nonce, neither in the reported range nor come in since the last result, waits in the queue or was in an earlier result |
| `SchedulerAgain.SecondNeedsWaiting` | p1-distributed-bitcoin-miner/src/github.com/cmu440/bitcoin/server/server.go:289-343 | A second result is sent to a connected client only if something of its request waited when the first went out |
| `SchedulerAgain.SmallOnlyOnce` | p1-distributed-bitcoin-miner/src/github.com/cmu440/bitcoin/server/server.go:196-212 | A request of at most 10000 nonces is never split and gets one result at most |
| `SchedulerRepeat.RepeatsIff` | p1-distributed-bitcoin-miner/src/github.com/cmu440/bitcoin/server/server.go:154-180 | A complete result can be followed by another one exactly for requests of more than 10000 nonces: a lost chunk is handed on as one chunk and its last nonce once more |
| `SchedulerTwoClients.SecondForgetsFirst` | p1-distributed-bitcoin-miner/src/github.com/cmu440/bitcoin/server/server.go:301-343 | A run in which a client's second result is worse than its first, although everything it asked for has come in |
| `SchedulerTwoClients.PrematureAnswer` | p1-distributed-bitcoin-miner/src/github.com/cmu440/bitcoin/server/server.go:289-343 | With two clients the result can be wrong: a run in which a client is sent the result of its first chunk while a better nonce waits in the queue |
| `SchedulerHeld.AssignHeld` | p1-distributed-bitcoin-miner/src/github.com/cmu440/bitcoin/server/server.go:187-228 | Handing out a request or its first chunk moves nonces without losing or adding any |
| `SchedulerHeld.SpreadHeld` | p1-distributed-bitcoin-miner/src/github.com/cmu440/bitcoin/server/server.go:247-274 | Spreading a large request over the free miners and queueing the rest adds exactly its nonces |
| `SchedulerHeld.ReplaceHeld` | p1-distributed-bitcoin-miner/src/github.com/cmu440/bitcoin/server/server.go:156-178 | Handing on or queueing the range of a lost miner keeps every client's nonces |
| `SchedulerWork.ResultHeld` | p1-distributed-bitcoin-miner/src/github.com/cmu440/bitcoin/server/server.go:279-344 | A result moves exactly one range from assigned to finished |
| `Scheduler.Server.constructor` | p1-distributed-bitcoin-miner/src/github.com/cmu440/bitcoin/server/server.go:45-59 | An empty scheduler |
| `Scheduler.Server.AssignNext` | p1-distributed-bitcoin-miner/src/github.com/cmu440/bitcoin/server/server.go:193-228 | The first waiting request or its first chunk goes to the miner, the rest to the back of the queue |
| `Scheduler.Server.Join` | p1-distributed-bitcoin-miner/src/github.com/cmu440/bitcoin/server/server.go:187-229 | A new miner gets work or becomes free |
| `Scheduler.Server.SpreadOut` | p1-distributed-bitcoin-miner/src/github.com/cmu440/bitcoin/server/server.go:247-274 | The splitting loop over the free miners |
| `Scheduler.Server.Ask` | p1-distributed-bitcoin-miner/src/github.com/cmu440/bitcoin/server/server.go:230-277 | A request is queued, given to one miner, or spread; what the miners are told is `SchedulerTold.RightOrders` |
| `Scheduler.Server.Result` | p1-distributed-bitcoin-miner/src/github.com/cmu440/bitcoin/server/server.go:279-344 | The miner is released and reused, then the task is improved and, if nobody works on it, answered |
| `Scheduler.Server.DropRequest` | p1-distributed-bitcoin-miner/src/github.com/cmu440/bitcoin/server/server.go:129-136 | The search loop removes the first waiting request of the client |
| `Scheduler.Server.DropFree` | p1-distributed-bitcoin-miner/src/github.com/cmu440/bitcoin/server/server.go:144-152 | The search loop removes the miner from the free ones |
| `Scheduler.Server.ReplaceMiner` | p1-distributed-bitcoin-miner/src/github.com/cmu440/bitcoin/server/server.go:156-178 | The range of a lost miner is handed on or put to the front of the queue |
| `Scheduler.Server.Fail` | p1-distributed-bitcoin-miner/src/github.com/cmu440/bitcoin/server/server.go:128-182 | A lost connection is a client's, a free miner's or a working miner's; a working miner that its client's task does not list stops the server |
| `Mining.Mine` | p1-distributed-bitcoin-miner/src/github.com/cmu440/bitcoin/miner/miner.go:60-72 | The scan returns the least hash of the range and the first nonce that attains it, unless upper + 1 wraps around or the range is empty; then it returns the lower bound |

## Left out

- RaftComplete.LeaderCompleteness, RaftCommit.StateMachineSafety: hold of fair and of careful runs; a step that is not fair or careful need not do harm.
- RaftReplicate.CanCommit: says what a leader can achieve; that it does would need assumptions on timers and the network.
- Raft timers, channels between goroutines, `applyCommit`, crashes and restarts: scheduling and delivery, not the locked state.
- RaftElection.BackedIff, RaftLog.LogSafeIff: are exact for the invariants; a step that breaks them need not be followed by one that gives a term two leaders or parts two logs.
- LSP connection set-up: a repeated Connect is not acknowledged again, so its liveness is not claimed; runs start connected.
- LSP calls after Close or on a lost connection, and a negative Size in a message: outside the contract of the interface.
- LspServerMachine.Server.OnPacket: ignores a Connect with a negative initial sequence number, because connections are modelled with numbers from 0 on.
- LspServerMachine.Server: connections are values in its table rather than objects of their own, and packets to send are not part of the server's state.
- GossipConverge.Convergence: does not cover keys passed on before a newer server was introduced, because the code never sends them; see GossipTiming.LateJoiner.
- GossipSettles.ComesToRest: counts rounds rather than time, and introductions have been handled before the first.
- GossipActor.QueryActor: reads (Get and List) would only add easy members, and uids are strings without the format of addresses.
- SchedulerAnswer.LoneClientAnswer: does not cover several clients, because the code can then answer early; see SchedulerTwoClients.PrematureAnswer.
- Scheduler tasks are values in their table; the reference that the Result branch keeps is modelled by reading the task again.
- JSON and gob encoding, sockets, RPC, log files, SHA-256: input and output, or code that is not part of this model.
- The key-value server and the squarer of the first project, mailboxes, the key-value client, the CMUD game: easy properties or user interface.
