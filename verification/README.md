# Verified models of protorun

protorun is a Go runtime for distributed protocols. It ships two consensus
protocols, a membership and a dissemination protocol, a reflective wire codec,
per-protocol mailboxes, a virtual clock for simulation, and a trace viewer. This
project models the parts whose correctness is hardest to see by reading one
function, and proves what the repository promises about them.

`dafny verify dfyconfig.toml` checks everything.

## How the models are built

* **Protocols.** One event loop per node makes every handler an atomic step. Each
  handler is a pure function (`RaftCore`, `PaxosCore`, `PlumtreeCore`,
  `HyParViewCore`) from a node state to the next state and the packets sent. A
  cluster is a map of nodes plus the set of all packets ever sent, from which a
  step may deliver any packet at any time: messages are lost, duplicated and
  reordered at will. `Restart` throws away all volatile state and reloads Storage; a
  crash inside a handler, between two of its writes to Storage, is a step of its own.
  Timers may fire whenever they are armed. A theorem about a run quantifies over
  every roster, every sequence of labels, every pair of moments.
* **Objects.** The handlers as they are written, fields updated in place, loops over
  peers and entries, storage written incrementally, are classes (`RaftServer`,
  `PaxosNode`, `PlumtreeNode`, `HyParViewNode`, `MailboxClasses`, `FakeClockClass`,
  `FoldWorld`, `FoldEngineClass`). Each handler's `ensures` says that the new object state and the
  packets sent are those of the pure function, so the whole-run theorems apply to it.
  In the two consensus objects every method that sends requires storage to mirror the
  durable state at that moment, so a handler that sent before persisting would not
  verify; that handlers find it mirrored is `RaftSafety.StorageMirrorsState` and
  `PaxosSafety.StorageMirrorsAcceptor`.
* **Consensus proofs.** `RaftInvariant` and `PaxosInvariant` define an inductive
  invariant over the node states, the packets, and a history of the run (votes cast,
  the log each leader was elected with and grew, who acknowledged what; the value and
  the acceptors of each ballot). `RaftSteps.StepPreserves` and
  `PaxosSteps.StepPreserves` show that every step preserves it under an extended
  history. The central notion in both is a majority that can no longer support an
  older term or ballot.
* **Answers.** Safety alone would also hold of a server that never answers. `RaftVotes`,
  `RaftElections`, `RaftReplication`, `RaftCommit`, `PaxosLearning`, `PaxosRounds`,
  `PlumtreeAnswers` and `HyParViewAnswers` say, over every run and on logs, packets,
  labels and views, exactly what each event leads to: when a vote is granted, when a
  candidate leads, what a follower accepts, what is committed, when a value is decided.
  `RaftProgress`, `RaftRecovery`, `PaxosRecovery` and `PlumtreeReach` put the answers
  together: from every reachable state the group has a way on.
* **Codec.** `WireTypes` says what a type means on the wire, independently of any
  plan. `WirePlan` is the compiler, with the structs in progress and the placeholders
  of recursive types as an environment. `WireCorrect` proves that running a compiled
  plan is the same as following the type, errors included, and `WireRoundTrip`,
  `WireSafety` and `WireCanonical` prove the properties of the format. `WireLayout`
  gives the bytes themselves, digit by digit, and shows that they are what is written;
  `WireReading` gives every byte string its meaning and shows that this is what is read,
  and `WireSupport` says which types have a wire form.
* **Mailboxes, clock, viewer.** `MailboxPolicy` says which event each overflow policy
  gives up, `MailboxProgress` that a mailbox can always drain, `FakeClockAnswers` what
  arming and stopping mean over a whole Advance, and `FoldMeaning` what a folded world holds, in terms of the last events of a trace.

## Where the code and its comments differ

The models follow the code.

* `FakeClock.Advance` is documented to fire deadlines in (now, now+d]; it also fires
  timers due exactly at now, such as those armed with a zero delay.
* `forwardCodec` is documented to stand behind a pointer, slice or map prefix. A
  back-reference can also be a by-value field, as in `type A struct{ B *B }` with
  `type B struct{ A A }`; its minimum of one byte is still right, because some prefix
  lies between the struct and its own back-reference.
* `openActive` keeps a candidate in the passive view so that a failed attempt does not
  forget it. Nothing protects it there: a full passive view may evict it while the
  attempt is pending.
* `nextBallot` is documented to return the smallest ballot of the node's sequence above
  maxSeen. With three nodes, index 2 and maxSeen 3 it returns 8, although 5 is free: it
  always moves to the next round. It is the smallest exactly when maxSeen is below the
  first round or at or past the node's place in its round.
* A reconnecting Paxos participant announces its accepted value to the peer but does not
  count it for itself: after a restart its own earlier acceptance counts towards a
  decision only once it accepts again.
* Paxos publishes Decided exactly once per incarnation: a restarted participant that
  learns the decision again publishes it again.
* `appendConflictFree` compares terms only. That entries with equal index and term are
  equal is not checked by the code; it is a theorem about every run.

## Model

| member | source | states |
|---|---|---|
| RaftSafety.StateMachineSafety | pkg/protocols/raft/protocol.go:345-463 | any two Applied notifications for one index, by any two servers in any incarnations, at any two moments of any run with loss, duplication, reordering and crashes, carry the same term and command |
| RaftSafety.AppliedInOrder | pkg/protocols/raft/protocol.go:453-463 | each incarnation has applied exactly the indices 1, 2, ..., commitIndex of its log, in order, with no gap or repeat |
| RaftSafety.LeaderCompleteness | pkg/protocols/raft/protocol.go:237-301 | whatever a server has committed while in term t is a prefix of the log of every leader of a later term, whichever two moments one compares |
| RaftSafety.ElectionSafety | pkg/protocols/raft/protocol.go:213-318 | two leaders of the same term, at whatever two moments and across crashes, are the same server |
| RaftSafety.LeaderChangedAgree | pkg/protocols/raft/protocol.go:501-507 | all LeaderChanged notifications of one term, of all servers and incarnations, name one leader |
| RaftSafety.HeartbeatsOnlyFromLeaders | pkg/protocols/raft/protocol.go:286-359 | a live heartbeat timer belongs to a leader, although the equal-term branch of onAppendEntries does not cancel it |
| RaftSafety.OneVotePerTerm | pkg/protocols/raft/protocol.go:237-255 | two votes granted by one server in one term, before or after a crash, went to the same candidate |
| RaftSafety.LogMatching | pkg/protocols/raft/protocol.go:361-408 | two logs, at any two moments, that agree on the term at an index agree on every entry up to it |
| RaftSafety.LeaderAppendOnly | pkg/protocols/raft/protocol.go:386-408 | during its term a leader's log only grows |
| RaftSafety.CommitIndexMonotone | pkg/protocols/raft/protocol.go:369-408 | between crashes commitIndex never decreases, never passes the end of the log, and no entry at or below it is truncated or changed |
| RaftSafety.LeaderCommitBounded | pkg/protocols/raft/protocol.go:332-343 | every AppendEntries ever sent has LeaderCommit at most PrevLogIndex plus the number of its entries |
| RaftSafety.CommitTargetIsHighest | pkg/protocols/raft/log.go:94-113 | on a log with non-decreasing terms the early break loses nothing: the result is at least every index that may be committed |
| RaftSafety.LeaderCommitsHighest | pkg/protocols/raft/protocol.go:438-449 | in every run every leader's log is such a log |
| RaftSafety.StorageMirrorsState | pkg/protocols/raft/storage.go:87-117 | after every handler Storage holds exactly the live term, vote and log, although only changed suffixes are written, so a restart resumes from it |
| RaftRecovery.CanCommitAnything | pkg/protocols/raft/protocol.go:203-481 | from every reachable state, whoever crashed and whatever was lost, and for every command, there is a way on with no further crash to where every server has applied that command, at one index |
| RaftRecovery.CanElect | pkg/protocols/raft/protocol.go:203-301 | from every reachable state the group can elect a leader no server is past: a member no log is ahead of gives way to a later term if it must, stands past all terms, and is backed by everyone |
| RaftProgress.LeaderCanFinish | pkg/protocols/raft/protocol.go:324-449 | from every reachable state, a leader no server is past, whose last entry is of its own term, has a way on to where every server holds its whole log and has applied it |
| RaftProgress.CatchUp | pkg/protocols/raft/protocol.go:332-433 | nextIndex backoff ends: from a heartbeat on, a leader brings any member that is not past its term to hold its whole log and to have committed what it had, and knows it; no other server changes |
| RaftVotes.VoteAnswer | pkg/protocols/raft/log.go:77-82 | over every run: asked for a vote of term t by a candidate that stood with log L, a server grants if and only if it is below t, or at t and has voted for nobody else, and its log is a prefix of L or ends in an older term than L; it sends exactly that answer and its whole new state is given |
| RaftVotes.GrantedTo | pkg/protocols/raft/protocol.go:237-255 | whoever granted a vote of term t had it free for that candidate, which stood in t earlier with a log that its own was a prefix of or ended in an older term than |
| RaftVotes.AskedBy | pkg/protocols/raft/protocol.go:213-228 | every RequestVote was sent by its source standing for election in that term, and states the length and last term of the log it had then |
| RaftVotes.Campaign | pkg/protocols/raft/protocol.go:203-235 | an election timeout leaves a leader alone; any other server moves to the next term with its own vote and asks every other member; alone in the group it leads at once |
| RaftElections.LeadsIffMajority | pkg/protocols/raft/protocol.go:257-282 | a server that stood in term t, has not crashed since and is still in t leads if and only if the votes of t handed to it since, with its own, are a majority |
| RaftElections.OfficeOpens | pkg/protocols/raft/protocol.go:286-301 | a new leader announces itself, takes every member to hold its whole log but counts none of it as stored, and sends every other member an empty AppendEntries anchored at the end of its log |
| RaftReplication.AppendAnswer | pkg/protocols/raft/protocol.go:345-408 | over every run: to an AppendEntries of a leader whose log was L when it sent it, a server past that term refuses; any other follows the leader and accepts if and only if its log starts with the part of L left out, and then holds L, or its own log where that extends L, and has committed what the leader had; exact answer and whole new state |
| RaftReplication.AppendedBy | pkg/protocols/raft/protocol.go:332-343 | every AppendEntries is the rest of the log its source led with at some moment, anchored by the entry before it, with the commit index of that moment |
| RaftReplication.ReplyAnswer | pkg/protocols/raft/protocol.go:410-433 | a refusal makes the leader back off by one entry and send again at once; a success raises and never lowers what the member is known to hold; a higher term ends the office; anything else changes nothing |
| RaftReplication.ProposeAnswer | pkg/protocols/raft/protocol.go:467-481 | a leader appends the command under its own term and sends every other member what it lacks; any other server does nothing |
| RaftReplication.HeartbeatAnswer | pkg/protocols/raft/protocol.go:324-343 | a heartbeat sends every other member what it lacks and changes nothing |
| RaftReplication.RestartAnswer | pkg/protocols/raft/protocol.go:135-160 | a crash loses everything but term, vote and log and sends nothing; one that interrupts the adoption of a higher term comes back in that term with no vote |
| RaftCommit.CommitsIff | pkg/protocols/raft/log.go:94-113 | while it leads, a server has committed entry i if and only if it had when it took office, or some entry of its own term at or past i is held by a majority: itself and the members whose acknowledgements it was handed since |
| RaftSteps.StepPreserves | pkg/protocols/raft/protocol.go:203-481 | every handler, restart included, preserves the cluster invariant under a history that only grows |
| RaftSteps.InterruptedMove | pkg/protocols/raft/protocol.go:307-318 | a crash right after a higher term is persisted, before the handler's next write, preserves the invariant |
| RaftFollower.CommittedInLeader | pkg/protocols/raft/log.go:77-82 | the vote restriction: a prefix committed in an earlier term is in the log every later leader was elected with |
| RaftFollower.ReplicatedIsChosen | pkg/protocols/raft/log.go:94-113 | a current-term entry whose match indices reach a majority is held by a majority of acknowledged followers: it is chosen |
| RaftFollower.SpliceResult | pkg/protocols/raft/protocol.go:386-408 | skipping entries of matching term and truncating only on a conflict leaves either the old log or exactly the leader's prefix, agreeing with the leader through the last entry sent |
| RaftFollower.SpliceKeeps | pkg/protocols/raft/protocol.go:386-408 | whatever prefix the log shares with the leader's survives the splice |
| RaftServer.SpliceMirrors | pkg/protocols/raft/protocol.go:402-405 | writing only the changed suffix keeps the stored log equal to the live one |
| RaftServer.AcceptMirrors | pkg/protocols/raft/protocol.go:369-379 | when a follower acknowledges entries, storage already holds its term, vote and log |
| RaftServer.ProposeMirrors | pkg/protocols/raft/protocol.go:467-481 | when a leader replicates a new entry, storage already holds it |
| RaftServer.Server.Reply | pkg/protocols/raft/protocol.go:510-518 | sends one packet, and may be called only while storage mirrors term, vote and log |
| RaftServer.CountIsReplicas | pkg/protocols/raft/log.go:101-108 | counting match indices counts the servers that hold the entry |
| RaftServer.MemoryStorage.AppendEntries | pkg/protocols/raft/storage.go:100-114 | everything at and above `from` is replaced by the entries |
| RaftServer.MemoryStorage.SaveTerm | pkg/protocols/raft/storage.go:96-98 | term and vote are overwritten, the log kept |
| RaftServer.MemoryStorage.Load | pkg/protocols/raft/storage.go:87-94 | returns the stored state |
| RaftServer.RaftLog.Append | pkg/protocols/raft/log.go:43-46 | appends and returns the new 1-based index |
| RaftServer.RaftLog.TruncateFrom | pkg/protocols/raft/log.go:50-55 | drops the entry at index and all after it, ignoring indices outside the log |
| RaftServer.Server.constructor | pkg/protocols/raft/protocol.go:104-147 | a process start is Boot on what Storage holds |
| RaftServer.Server.ElectionTimeout | pkg/protocols/raft/protocol.go:203-235 | computes OnElectionTimeout and its packets |
| RaftServer.Server.ReceiveRequestVote | pkg/protocols/raft/protocol.go:237-255 | computes OnRequestVote, the answer of RaftVotes.VoteAnswer, persisting before replying |
| RaftServer.Server.ReceiveRequestVoteReply | pkg/protocols/raft/protocol.go:257-282 | computes OnRequestVoteReply, taking office on a majority |
| RaftServer.Server.TakeOffice | pkg/protocols/raft/protocol.go:286-301 | resets every peer's progress by a loop, announces leadership once, arms one heartbeat timer |
| RaftServer.Server.StepDownTo | pkg/protocols/raft/protocol.go:307-318 | computes StepDown, heartbeat cancelled only if leading |
| RaftServer.Server.SendAppendEntries | pkg/protocols/raft/protocol.go:332-343 | sends AppendFor the peer |
| RaftServer.Server.Splice | pkg/protocols/raft/protocol.go:386-408 | the loop leaves log and storage alone when all entries are held, else rewrites both from the first entry not held |
| RaftServer.Server.ReceiveAppendEntries | pkg/protocols/raft/protocol.go:345-379 | computes OnAppendEntries and its reply |
| RaftServer.Server.Apply | pkg/protocols/raft/protocol.go:453-463 | the loop computes ApplyCommitted |
| RaftServer.Server.AdvanceCommitIndex | pkg/protocols/raft/log.go:94-113 | the nested counting loop computes CommitTarget |
| RaftServer.Server.ReceiveAppendEntriesReply | pkg/protocols/raft/protocol.go:410-433 | computes OnAppendEntriesReply |
| RaftServer.Server.Propose | pkg/protocols/raft/protocol.go:467-481 | a leader computes HandlePropose and returns the index; anyone else redirects to the leader it knows |
| PaxosSafety.Agreement | pkg/protocols/paxos/protocol.go:408-449 | any two decisions ever published, by any participants in any incarnations, carry the same value |
| PaxosSafety.Validity | pkg/protocols/paxos/protocol.go:453-468 | a decided value was handed to some participant's Propose at an earlier step |
| PaxosSafety.ChosenForever | pkg/protocols/paxos/state.go:56-84 | once each member of a majority has held (b, v) as accepted, at whatever moments, every Accept ever sent at ballot b or above carries v |
| PaxosSafety.OneValuePerBallot | pkg/protocols/paxos/protocol.go:258-284 | all Accept and Accepted messages of one ballot carry one value |
| PaxosSafety.BallotOwner | pkg/protocols/paxos/state.go:26-37 | every Prepare comes from the participant of its ballot's residue class |
| PaxosSafety.NextBallotUnused | pkg/protocols/paxos/state.go:38-41 | the ballot any participant would pick next is mentioned in no packet ever sent, of any kind, by anyone, in any incarnation |
| PaxosSafety.FreshPrepare | pkg/protocols/paxos/protocol.go:224-253 | a Prepare put on the wire carries a ballot no earlier packet of any kind mentions |
| PaxosSafety.StorageMirrorsAcceptor | pkg/protocols/paxos/storage.go:63-73 | after every handler Storage holds the live acceptor state, a restart resumes from it, and maxSeen is at least the promise |
| PaxosSafety.PromisesBind | pkg/protocols/paxos/protocol.go:306-335 | across crashes promises and accepted ballots never decrease, and anything accepted later is at or above the promise held before |
| PaxosSafety.DecidedOnce | pkg/protocols/paxos/protocol.go:433-449 | an incarnation publishes Decided at most once, and it is the decision it keeps |
| PaxosRecovery.CanDecide | pkg/protocols/paxos/protocol.go:191-468 | from every reachable state there is a way on with no further crash to where every participant has decided |
| PaxosRecovery.WholeRound | pkg/protocols/paxos/protocol.go:224-449 | a participant that has not decided can lead the group through a round above every promise, in which everyone promises, accepts, and hears of everyone else's acceptance |
| PaxosRecovery.StrandedLearns | pkg/protocols/paxos/protocol.go:191-196 | a participant that missed the decision learns it on reconnect: when the others that hold one accepted ballot are a majority, sessions with them are enough for it to decide |
| PaxosLearning.DecidedIff | pkg/protocols/paxos/protocol.go:388-449 | over every run: a participant has decided if and only if, since it last started, it was told that a majority accepted one ballot: by announcements handed to it, or by its own acceptance |
| PaxosLearning.DecidedOn | pkg/protocols/paxos/protocol.go:408-449 | the decision is of a ballot a majority told it of, and has the value every Accept and Accepted of that ballot carries |
| PaxosRounds.PrepareAnswer | pkg/protocols/paxos/protocol.go:306-347 | a Prepare is promised if and only if it is above every ballot promised so far; the answer reports the last proposal accepted, or the promise in the way; whole new state |
| PaxosRounds.AcceptAnswer | pkg/protocols/paxos/protocol.go:324-355 | an Accept is accepted if and only if it is not below the promise; every other member is told, or the proposer is told of the promise; whole new state but for what the learner makes of it |
| PaxosRounds.PromiseAnswer | pkg/protocols/paxos/protocol.go:359-379 | a promise for the ballot being collected is kept; as soon as those kept are a majority the round goes on to phase 2 with the value of the highest ballot reported, or its own if none is; any other promise is ignored |
| PaxosRounds.RoundAnswer | pkg/protocols/paxos/protocol.go:224-253 | an undecided participant that is idle when handed a value, or stalled when its retry fires, opens a round in the next round of ballots at its own place, promises it and asks every other member; otherwise nothing changes |
| PaxosRounds.RefusalAnswer | pkg/protocols/paxos/protocol.go:359-384 | a refused promise and an AcceptNack only raise the highest ballot seen |
| PaxosRounds.AcceptedAnswer | pkg/protocols/paxos/protocol.go:388-390 | an announced acceptance sends nothing and leaves acceptor and round alone, but for ending the round when it decides |
| PaxosRounds.SessionAnswer | pkg/protocols/paxos/protocol.go:191-196 | a new session is told what was last accepted; the participant does not count that as an acceptance of its own |
| PaxosRounds.RestartAnswer | pkg/protocols/paxos/protocol.go:163-187 | a crash loses everything but the acceptor, and the highest ballot seen is its promise again |
| PaxosRounds.NextBallotSkips | pkg/protocols/paxos/state.go:26-41 | with three nodes, index 2 and maxSeen 3, nextBallot returns 8 although 5 is the node's own and above 3 |
| PaxosRounds.NextBallotSmallestIff | pkg/protocols/paxos/state.go:26-41 | nextBallot is the smallest ballot of the node's sequence above maxSeen if and only if maxSeen is below the first round or at or past the node's place in its round |
| PaxosSteps.StepPreserves | pkg/protocols/paxos/protocol.go:163-468 | every handler, reconnect and restart preserves the group invariant under a history that only grows |
| PaxosSteps.CutStep | pkg/protocols/paxos/protocol.go:224-253 | a crash after the self-promise is persisted and Prepare sent, before phase 2, preserves the invariant |
| PaxosProof.AdoptionIsSafe | pkg/protocols/paxos/state.go:69-84 | with a majority of promises, adopting the highest reported ballot agrees with every lower ballot that may still be chosen |
| PaxosProof.LateBallotBlocked | pkg/protocols/paxos/state.go:43-54 | a ballot given a value after a higher one has its quorum can never be chosen |
| PaxosProof.BallotIsFresh | pkg/protocols/paxos/state.go:26-41 | the next ballot is above the promise, in the node's residue class, and was never started |
| PaxosProof.BestIsHighest | pkg/protocols/paxos/state.go:69-84 | the report kept is one of those given, and of the highest accepted ballot |
| PaxosNode.AdoptValue | pkg/protocols/paxos/state.go:69-84 | the loop adopts the value of a highest reported ballot if anything was accepted, else keeps the proposer's own |
| PaxosNode.MemoryStorage.Persist | pkg/protocols/paxos/storage.go:70-73 | later loads return what was persisted |
| PaxosNode.MemoryStorage.Load | pkg/protocols/paxos/storage.go:63-68 | returns the zero state until something was saved |
| PaxosNode.Participant.constructor | pkg/protocols/paxos/protocol.go:117-175 | a process start is Boot on what Storage holds |
| PaxosNode.Participant.SendTo | pkg/protocols/paxos/storage.go:25-35 | sends one packet, and may be called only while storage holds the live acceptor state |
| PaxosNode.Participant.TryPromise | pkg/protocols/paxos/protocol.go:306-318 | promises and persists if and only if the ballot is above the promise, and reports the accepted proposal |
| PaxosNode.Participant.TryAccept | pkg/protocols/paxos/protocol.go:324-335 | accepts and persists if and only if the ballot is at least the promise |
| PaxosNode.Participant.ReceivePrepare | pkg/protocols/paxos/protocol.go:337-347 | computes OnPrepare and its reply |
| PaxosNode.Participant.ReceiveAccept | pkg/protocols/paxos/protocol.go:349-355 | computes OnAccept: announce on acceptance, NACK otherwise |
| PaxosNode.Participant.ReceivePromise | pkg/protocols/paxos/protocol.go:359-379 | computes OnPromise, entering phase 2 on a majority |
| PaxosNode.Participant.Phase2 | pkg/protocols/paxos/protocol.go:258-284 | computes BeginPhase2: choose, self-accept, announce, ask |
| PaxosNode.Participant.Round | pkg/protocols/paxos/protocol.go:224-253 | computes StartRound, the self-promise persisted before Prepare is sent |
| PaxosNode.Participant.RetryTimeout | pkg/protocols/paxos/protocol.go:288-293 | computes OnRetryTimeout |
| PaxosNode.Participant.Record | pkg/protocols/paxos/protocol.go:408-428 | computes RecordAccepted, which over a run decides exactly when PaxosLearning.DecidedIff says |
| PaxosNode.Participant.ReceiveAccepted | pkg/protocols/paxos/protocol.go:388-390 | computes RecordAccepted and sends nothing |
| PaxosNode.Participant.ReceiveAcceptNack | pkg/protocols/paxos/protocol.go:381-384 | only learns the ballot |
| PaxosNode.Participant.Propose | pkg/protocols/paxos/protocol.go:453-468 | refuses with the decision once decided, else computes HandlePropose |
| PaxosNode.Participant.SessionConnected | pkg/protocols/paxos/protocol.go:191-196 | re-announces an accepted value to the peer |
| WireSafety.CodecRoundTrip | pkg/protorun/wirecodec.go:159-293 | for every supported type, recursive ones included, and every value, decoding its encoding followed by any bytes gives the value and exactly those bytes if and only if no slice of zero-size elements exceeds the cap; otherwise decoding fails |
| WireSafety.MessageRoundTrip | pkg/protorun/wirecodec.go:40-79 | Unmarshal inverts Marshal under the same condition and refuses trailing bytes |
| WireSafety.MarshalInjective | pkg/protorun/wirecodec.go:40-58 | different messages have different encodings |
| WireSafety.ZeroSizeSliceIsLost | pkg/protorun/wirecodec.go:394-419 | a slice of 2^20 + 1 empty structs encodes and does not decode |
| WireSafety.CompileCorrect | pkg/protorun/wirecodec.go:131-213 | the compiled codec writes and reads, and fails, exactly as the type prescribes: forwarding plans and length checks change no result |
| WireSafety.DecodeTotal | pkg/protorun/wirecodec.go:159-165 | on every byte string decoding ends in an error or with a suffix of the input after at least `min` bytes |
| WireSafety.EncodingReachesMin | pkg/protorun/wirecodec.go:88-97 | every encoding of every value is at least `min` bytes long, so readCount never refuses a genuine one; proved from the encoder alone, with no cap and for every program |
| WireSafety.PutReachesMin | pkg/protorun/wirecodec.go:88-97 | a value takes at least the minimum of its type |
| WireSafety.DecodedSurvives | pkg/protorun/wirecodec.go:60-79 | whatever bytes decode, the result is a value of the type and re-encodes to bytes that decode to it |
| WireSafety.GetIsTyped | pkg/protorun/wirecodec.go:232-290 | decoding returns only values of the type, within the cap |
| WireCanonical.MessageReproduced | pkg/protorun/wirecodec.go:40-79 | a decoded message re-encodes to the very bytes it came from if and only if these are canonical: bool bytes 0 or 1, counts and lengths minimal, encoded map keys strictly increasing |
| WireCanonical.ReencodingIsExact | pkg/protorun/wirecodec.go:193-390 | the same for every type, inside any input |
| WireCanonical.EncodingIsCanonical | pkg/protorun/wirecodec.go:193-367 | everything the encoder writes is canonical |
| WireCanonical.CanonicalIsWritten | pkg/protorun/wirecodec.go:200-390 | canonical bytes that decode are what the encoder writes for the value |
| WireCanonical.MinimalIsWritten | pkg/protorun/wirecodec.go:404-409 | a uvarint is what its value is written as if and only if no zero byte follows a continuation byte |
| WireCanonical.BoolByteNotReproduced | pkg/protorun/wirecodec.go:500-507 | a message whose bool byte is above 1 reads as true and comes back as 1 |
| WireCanonical.LongUvarintNotReproduced | pkg/protorun/wirecodec.go:473-486 | a length written with a superfluous byte comes back without it |
| WireCanonical.EntryOrderDecides | pkg/protorun/wirecodec.go:369-390 | two map entries decode in any order, the later value winning on a repeated key, and come back as they were if and only if the keys increase |
| WireReading.UnmarshalIff | pkg/protorun/wirecodec.go:60-79 | on every input: Unmarshal accepts data as v if and only if the message type is supported and data means v, a relation on bytes alone: any nonzero byte is true, counts may have superfluous groups within 64 bits, a pointer tag is 0 or 1, map entries come in any order and the last of a repeated key wins, nothing may follow |
| WireReading.ReadingIsMeaning | pkg/protorun/wirecodec.go:200-579 | the same for every type inside any input: the decoder reads v and leaves rest if and only if what stands before rest means v |
| WireSupport.CompilesIffSupported | pkg/protorun/wirecodec.go:131-346 | a type compiles if and only if every type it is made of, through any recursion, has a wire form: arrays of scalars only, pointers to structs only, no rejected kind |
| WireSupport.MarshalsIffSupported | pkg/protorun/wirecodec.go:40-58 | Marshal has a result exactly for those message types |
| WireLayout.MarshalIsLayout | pkg/protorun/wirecodec.go:40-58 | Marshal writes b if and only if b is laid out as the format says, stated on the bytes: little-endian two's complement words, bool 0 or 1, pointer tag 0 or 1, uvarint counts of 7-bit groups before elements, fields in declaration order, map entries by increasing encoded key |
| WireLayout.EncodingIsLayout | pkg/protorun/wirecodec.go:167-367 | the same for every type: Layout gives a value exactly one byte string, its encoding |
| WireLayout.WordBytes | pkg/protorun/wirecodec.go:518-579 | byte i of a word is (w / 256^i) mod 256 |
| WireLayout.UvarintBytes | pkg/protorun/wirecodec.go:434-450 | group i of an encoded count is (n / 128^i) mod 128, with the high bit on all bytes but the last |
| WireLayout.UvarintReadsGroups | pkg/protorun/wirecodec.go:404-409 | reading a uvarint gives the sum of its groups and the bytes after its last one |
| WireLayout.UvarintFailsOtherwise | pkg/protorun/wirecodec.go:404-409 | reading a uvarint succeeds if and only if some byte ends it in time |
| WireLayout.ScalarIs | pkg/protorun/wirecodec.go:494-579 | the bytes of each scalar kind, signed ones in two's complement |
| WireSafety.MapEncodingCanonical | pkg/protorun/wirecodec.go:348-367 | the bytes of a map are the same for every iteration order of its keys |
| WireCorrect.PlanMinIs | pkg/protorun/wirecodec.go:159-165 | the compiler's `min` never exceeds the real minimum and is zero only where that is; a back-reference takes at least a byte |
| WireCorrect.CountSame | pkg/protorun/wirecodec.go:404-419 | readCount accepts what a plain count accepts, or the count exceeds what the remaining bytes could hold |
| WireCorrect.EncodeSame | pkg/protorun/wirecodec.go:167-213 | a plan compiled inside any stack of structs in progress encodes as its type |
| WireCorrect.DecodeSame | pkg/protorun/wirecodec.go:200-290 | a plan compiled inside any stack of structs in progress decodes as its type |
| WireCorrect.GetConsumes | pkg/protorun/wirecodec.go:88-97 | reading leaves a suffix after at least the type's minimum |
| WireRoundTrip.RoundTrip | pkg/protorun/wirecodec.go:193-292 | the round trip by type, with its exact condition |
| WireRoundTrip.KeysInjective | pkg/protorun/wirecodec.go:348-367 | distinct map keys have distinct encodings |
| WireRoundTrip.ZeroSizeIsEmpty | pkg/protorun/wirecodec.go:394-397 | a type that may take no bytes always takes none |
| WireFormat.SortedUnique | pkg/protorun/wirecodec.go:358-360 | a strictly sorted listing of the keys is unique, whatever sort produced it |
| WireFormat.UvarintRoundTrip | pkg/protorun/wirecodec.go:404-409 | every 64-bit count is read back from its uvarint, leaving what follows |
| WireFormat.RawRoundTrip | pkg/protorun/wirecodec.go:473-486 | every byte run is read back from its length-prefixed form |
| WireTypes.ScalarRoundTrip | pkg/protorun/wirecodec.go:499-579 | every value of every scalar kind is read back from its fixed-size form; the bytes are WireLayout.ScalarIs |
| WirePlan.ForwardResolves | pkg/protorun/wirecodec.go:156-170 | a back-reference resolves to the plan its struct was compiled to |
| WireCodec.EncodeValue | pkg/protorun/wirecodec.go:193-292 | running the encoder of a compiled plan writes what the type prescribes |
| WireCodec.EncodeMap | pkg/protorun/wirecodec.go:348-367 | gathering entries in any iteration order and sorting by encoded key writes what the type prescribes |
| WireCodec.DecodeValue | pkg/protorun/wirecodec.go:200-290 | running the decoder terminates and computes Decode |
| WireCodec.DecodeSlice | pkg/protorun/wirecodec.go:275-290 | the element loop computes DecodeItems |
| WireCodec.DecodeMap | pkg/protorun/wirecodec.go:369-390 | the entry loop computes DecodeEntries, a repeated key taking its last value |
| WireCodec.CheckCount | pkg/protorun/wirecodec.go:404-419 | computes ReadCount |
| WireCodec.DecodeBytes | pkg/protorun/wirecodec.go:473-486 | computes the length-prefixed read |
| MailboxSafety.InFlightConserved | pkg/protorun/protocol.go:567-594 | in every interleaving of any number of producers with the loop, under every overflow policy, inFlight is the number of events queued, being dispatched, or held mid-enqueue |
| MailboxSafety.ZeroMeansQuiescent | pkg/protorun/simhook.go:77-103 | inFlight = 0 implies nothing queued, no handler running, no producer that has yet to push |
| MailboxSafety.DispatchInPushOrder | pkg/protorun/mailbox.go:289-353 | handlers see exactly the pushed events that were not dropped, in push order; Block and Unbounded drop nothing; bounded queues stay bounded |
| MailboxSafety.NoLostWakeup | pkg/protorun/mailbox.go:289-353 | a loop parked beside a non-empty queue can wake now, or after a send some producer is about to make |
| MailboxSafety.DeadLettersExact | pkg/protorun/protocol.go:588-605 | the dead-letter hook is called at most once per dropped event and for nothing else, and for all of them once producers have left enqueue |
| MailboxProgress.CanDrain | pkg/protorun/protocol.go:475-605 | from every state of every interleaving in which the loop was not stopped there is a way on, with no new event, to rest: the counter is zero and every event ever pushed was dispatched, in push order, or dropped and reported |
| MailboxPolicy.PushIsExact | pkg/protorun/mailbox.go:304-327 | over every interleaving: a push to a full queue drops the new event under DropNewest and the oldest queued one under DropOldest; something is dropped if and only if the queue was full and the policy drops |
| MailboxPolicy.OnlyPushDrops | pkg/protorun/mailbox.go:329-361 | no other step drops an event |
| MailboxPolicy.QueuedIsSafe | pkg/protorun/mailbox.go:310-324 | unless the policy is DropOldest, an event once queued is never dropped at any moment |
| MailboxPolicy.DropsOldest | pkg/protorun/mailbox.go:310-324 | under DropOldest every event dropped is older than every one still queued, and the last pushed is queued or dispatched |
| MailboxClasses.DequeMailbox.Insert | pkg/protorun/mailbox.go:304-327 | under the lock: a full queue drops the new event under DropNewest and its head under DropOldest, otherwise the event is appended; events are conserved as queued or dropped, and the signal is left alone |
| MailboxClasses.DequeMailbox.Wake | pkg/protorun/mailbox.go:296-299 | outside the lock: the signal is pending afterwards |
| MailboxClasses.DequeMailbox.Push | pkg/protorun/mailbox.go:289-301 | the two in sequence, as one thread runs them |
| MailboxClasses.DequeMailbox.TryNext | pkg/protorun/mailbox.go:329-353 | takes the head, or consumes a pending signal, or parks |
| MailboxClasses.DequeMailbox.Drain | pkg/protorun/mailbox.go:355-361 | empties the queue into the result |
| MailboxClasses.BlockingMailbox.TrySend | pkg/protorun/mailbox.go:243-250 | a send succeeds if and only if there is room |
| MailboxClasses.BlockingMailbox.Drain | pkg/protorun/mailbox.go:261-271 | empties the channel in order |
| MailboxClasses.Protocol.Enqueue | pkg/protorun/protocol.go:567-605 | the counter moves exactly with the queue, whether called between turns or by a handler, and what was dropped is dead-lettered |
| MailboxClasses.Protocol.Dispatch | pkg/protorun/protocol.go:482-491 | the decrement follows the handler and everything it enqueued |
| MailboxClasses.Protocol.RunUntilIdle | pkg/protorun/protocol.go:475-498 | with handlers that enqueue to their own protocol, the loop computes RunLoop and leaves queue and counter at zero |
| MailboxClasses.RunLoopConserves | pkg/protorun/protocol.go:475-605 | everything queued at the start or enqueued by handlers on the way is handled or dead-lettered, once |
| PlumtreeSafety.DeliveredAtMostOnce | pkg/protocols/plumtree/protocol.go:224-242 | over every run with loss, duplication and reordering a node publishes each id at most once |
| PlumtreeSafety.DeliveredIsGenuine | pkg/protocols/plumtree/protocol.go:211-242 | what is delivered under an id is what its origin broadcast as its message of that number, at an earlier step |
| PlumtreeSafety.MissingIsArmed | pkg/protocols/plumtree/protocol.go:244-301 | an id not received, with an announcer left, always has an armed timer, and firing it GRAFTs that announcer |
| PlumtreeSafety.CacheIsGenuine | pkg/protocols/plumtree/protocol.go:257-266 | what a GRAFT is answered from is bounded and holds only genuine payloads of delivered messages |
| PlumtreeSafety.CachePutOk | pkg/protocols/plumtree/cache.go:21-32 | put keeps the cache a duplicate-free FIFO within its bound, keeps the first copy of a payload, and evicts only when full |
| PlumtreeCoverage.LinksAreTold | pkg/protocols/plumtree/protocol.go:211-345 | over every run: whatever id a node received, every link it had then and still has, but the one the message came from, has been sent the payload or an announcement, or has one queued |
| PlumtreeCoverage.ToldKept | pkg/protocols/plumtree/protocol.go:188-345 | no step but that link's NeighborDown takes a sent or queued announcement away; a flush turns queued into sent |
| PlumtreeCoverage.GraftAnswered | pkg/protocols/plumtree/protocol.go:257-266 | over every run, a GRAFT that arrives while the message is cached is answered with what the origin broadcast, and makes its sender a tree link |
| PlumtreeReach.CanReach | pkg/protocols/plumtree/protocol.go:211-345 | from every reachable state and along any path of links, eager and lazy alike, there is a way on in which the first host broadcasts, no neighbour goes down, and every host on the path delivers that payload |
| PlumtreeAnnouncers.AnnouncersHave | pkg/protocols/plumtree/protocol.go:224-345 | over every run, whoever is on record as an announcer of a message, and whoever has sent or announced one, has received it |
| PlumtreeAnswers.ReceivedIff | pkg/protocols/plumtree/protocol.go:211-242 | a node has received a message if and only if it broadcast it or was handed it |
| PlumtreeAnswers.DeliveredIff | pkg/protocols/plumtree/protocol.go:349-351 | a node has delivered exactly what it has received |
| PlumtreeAnswers.GossipAnswer | pkg/protocols/plumtree/protocol.go:224-242 | a new message is delivered, pushed to the eager links one round further (modulo 2^32), announced to the lazy ones, and makes its sender eager; a known one makes its sender lazy and is answered with a Prune |
| PlumtreeAnswers.BroadcastAnswer | pkg/protocols/plumtree/protocol.go:211-220 | a broadcast gets the next number, is delivered at its origin, and is pushed to every link at round 0 |
| PlumtreeAnswers.IHaveAnswer | pkg/protocols/plumtree/protocol.go:244-255 | announcements of messages not received are recorded in the order made, and their timers armed; nothing else changes |
| PlumtreeAnswers.TimeoutAnswer | pkg/protocols/plumtree/protocol.go:275-293 | a timer forgets a message that arrived; otherwise the first announcer on record is asked, becomes eager and is struck off, and the timer stays armed for the next |
| PlumtreeAnswers.GraftAnswer | pkg/protocols/plumtree/protocol.go:257-266 | a Graft makes its sender eager and is answered if and only if the message is cached |
| PlumtreeAnswers.LinkAnswer | pkg/protocols/plumtree/protocol.go:162-271 | a Prune makes its sender lazy; a neighbour coming up or in the initial view is eager |
| PlumtreeAnswers.DownAnswer | pkg/protocols/plumtree/protocol.go:188-207 | a neighbour going down loses its link, its queue and its records, all other records stay in order, and a message with no record left has no timer |
| PlumtreeAnswers.TickAnswer | pkg/protocols/plumtree/protocol.go:329-345 | a tick sends each peer what is queued for it in one message and leaves nothing queued |
| PlumtreeNode.PayloadCache.Put | pkg/protocols/plumtree/cache.go:21-32 | computes CachePut |
| PlumtreeNode.Tree.NeighborUp | pkg/protocols/plumtree/protocol.go:180-186 | computes OnNeighborUp |
| PlumtreeNode.Tree.NeighborDown | pkg/protocols/plumtree/protocol.go:188-207 | computes OnNeighborDown |
| PlumtreeNode.Tree.ForgetAnnouncer | pkg/protocols/plumtree/protocol.go:194-206 | the loop drops the peer from every record and cancels exactly the records left empty |
| PlumtreeNode.Tree.ReceiveView | pkg/protocols/plumtree/protocol.go:162-176 | the loop computes OnView: every peer of the initial view starts eager |
| PlumtreeNode.Tree.Broadcast | pkg/protocols/plumtree/protocol.go:211-220 | computes HandleBroadcast and its packets |
| PlumtreeNode.Tree.ReceiveGossip | pkg/protocols/plumtree/protocol.go:224-242 | computes OnGossip and its packets |
| PlumtreeNode.Tree.ReceiveIHave | pkg/protocols/plumtree/protocol.go:244-255 | the loop computes OnIHave |
| PlumtreeNode.Tree.ReceiveGraft | pkg/protocols/plumtree/protocol.go:257-266 | computes OnGraft and its packets |
| PlumtreeNode.Tree.ReceivePrune | pkg/protocols/plumtree/protocol.go:268-271 | computes OnPrune |
| PlumtreeNode.Tree.MissingTimeout | pkg/protocols/plumtree/protocol.go:275-293 | computes OnMissingTimeout and its GRAFT |
| PlumtreeNode.Tree.Flush | pkg/protocols/plumtree/protocol.go:329-345 | sends each queued batch and empties the queue |
| OverlaySafety.ViewsSound | pkg/protocols/hyparview/protocol.go:413-461 | in every reachable state, for all random picks, self is in neither view and the views are disjoint and within their limits |
| OverlaySafety.StreamIsActiveView | pkg/protocols/hyparview/protocol.go:413-433 | replaying the NeighborUp/NeighborDown stream gives exactly the active view, and per peer it alternates starting with Up |
| OverlaySafety.LinksCoverNeighbors | pkg/protocols/plumtree/protocol.go:180-271 | after any prefix of that stream, interleaved with any messages, Plumtree's eager and lazy sets are disjoint and cover every peer then up |
| OverlaySafety.StepOk | pkg/protocols/hyparview/protocol.go:138-482 | every HyParView handler keeps the views sound and only extends the stream |
| OverlaySafety.LinksKept | pkg/protocols/plumtree/protocol.go:211-293 | no Plumtree handler but NeighborDown forgets a link |
| OverlayMemory.PeersAreRemembered | pkg/protocols/hyparview/protocol.go:138-482 | over every run: a peer that is passive, being attempted or active stays in one of the two views until its session fails or a handler files more than the passive view has room for |
| OverlayMemory.StepRemembers | pkg/protocols/hyparview/protocol.go:138-482 | a handler for whose filings there is room forgets no peer but one whose session failed |
| OverlayMemory.EvictionIffFull | pkg/protocols/hyparview/protocol.go:451-461 | filing a host spares a passive peer under every random pick if and only if the host is no newcomer or the view is not full |
| OverlayMemory.PendingPeerEvicted | pkg/protocols/hyparview/protocol.go:183-189 | a full passive view can evict a peer while an attempt to reach it is pending |
| OverlayMemory.ReplyFilesPeer | pkg/protocols/hyparview/protocol.go:297-310 | an accepted request ends with the peer in the active view, a refused one with it in the passive view |
| HyParViewAnswers.EveryAnswer | pkg/protocols/hyparview/protocol.go:138-482 | every step of every run, under all random picks, changes the views as a relation on views alone allows for its event: who enters, who is dropped or evicted for it and only when full, who is filed, and whom an attempt is started at |
| HyParViewAnswers.MembershipAnswers | pkg/protocols/hyparview/protocol.go:138-482 | each handler satisfies that relation from any sound views |
| HyParViewNode.RandomExcept | pkg/protocols/hyparview/views.go:40-49 | picks a member outside the exclusions if and only if there is one |
| HyParViewNode.FilterExcept | pkg/protocols/hyparview/views.go:62-75 | keeps exactly the hosts not excluded |
| HyParViewNode.Membership.Join | pkg/protocols/hyparview/protocol.go:413-423 | computes AddActive |
| HyParViewNode.Membership.Leave | pkg/protocols/hyparview/protocol.go:427-433 | computes RemoveActive |
| HyParViewNode.Membership.Evict | pkg/protocols/hyparview/protocol.go:438-447 | computes DropRandomActive for the victim picked |
| HyParViewNode.Membership.FilePassive | pkg/protocols/hyparview/protocol.go:451-461 | computes AddPassive for the eviction picked |
| HyParViewNode.Membership.Integrate | pkg/protocols/hyparview/protocol.go:464-468 | the loop computes IntegratePassive |
| HyParViewNode.Membership.Open | pkg/protocols/hyparview/protocol.go:179-201 | computes OpenActive |
| HyParViewNode.Membership.Refill | pkg/protocols/hyparview/protocol.go:473-482 | computes Promote for the candidate picked |
| HyParViewNode.Membership.SessionConnected | pkg/protocols/hyparview/protocol.go:138-143 | computes OnSessionConnected |
| HyParViewNode.Membership.SessionDown | pkg/protocols/hyparview/protocol.go:155-169 | computes OnSessionDown |
| HyParViewNode.Membership.AttemptTimeout | pkg/protocols/hyparview/protocol.go:221-231 | computes OnAttemptTimeout |
| HyParViewNode.Membership.ReceiveJoin | pkg/protocols/hyparview/protocol.go:243-251 | computes AddActive for the newcomer |
| HyParViewNode.Membership.ReceiveForwardJoin | pkg/protocols/hyparview/protocol.go:256-274 | computes OnForwardJoin |
| HyParViewNode.Membership.ReceiveNeighbor | pkg/protocols/hyparview/protocol.go:280-292 | computes OnNeighbor and the answer |
| HyParViewNode.Membership.ReceiveNeighborReply | pkg/protocols/hyparview/protocol.go:297-310 | computes OnNeighborReply |
| HyParViewNode.Membership.ReceiveDisconnect | pkg/protocols/hyparview/protocol.go:315-322 | computes OnDisconnect |
| HyParViewNode.Membership.ReceiveShuffle | pkg/protocols/hyparview/protocol.go:347-371 | computes OnShuffle |
| HyParViewNode.Membership.ReceiveShuffleReply | pkg/protocols/hyparview/protocol.go:375-386 | computes OnShuffleReply |
| HyParViewNode.Membership.MaintenanceTick | pkg/protocols/hyparview/protocol.go:396-406 | computes OnMaintenanceTick |
| FakeClockSafety.AdvanceFiresAllDue | pkg/prototest/fakeclock.go:68-93 | with non-negative delays and callbacks that arm and stop timers, Advance(d) ends exactly at now + d; a timer pending before or armed meanwhile fired if and only if it was due and not stopped, and is still pending if and only if it was neither |
| FakeClockSafety.AdvanceFiresInOrder | pkg/prototest/fakeclock.go:68-109 | timers fire in strictly increasing (deadline, arm order), so none twice, those armed during the advance included |
| FakeClockSafety.StopIsFinal | pkg/prototest/fakeclock.go:167-176 | a stopped timer is never fired |
| FakeClockSafety.FireOk | pkg/prototest/fakeclock.go:79-90 | each step moves Now forward to the first due deadline, and what is still due comes later |
| FakeClockSafety.FireDueIs | pkg/prototest/fakeclock.go:117-134 | fireDue is Advance's loop with the target at the present, and never moves Now |
| FakeClockSafety.EarliestIs | pkg/prototest/fakeclock.go:97-109 | the scan returns the first due timer, or nothing when none is due |
| FakeClockSafety.NegativeDelayMovesBack | pkg/prototest/fakeclock.go:55-61 | on any sound clock, the next fire after arming a timer takes Now backwards if and only if its delay is negative |
| FakeClockSafety.TimeGoesBackIff | pkg/prototest/fakeclock.go:72-93 | whatever the callbacks do, a fire takes Now backwards if and only if a timer was pending in the past just before it, so over a whole Advance time goes back if and only if it started with such a timer or some callback left one |
| FakeClockSafety.OnlyNegativeDelays | pkg/prototest/fakeclock.go:55-61 | a callback that leaves a timer in the past armed one with a negative delay |
| FakeClockAnswers.FiresAfterDelay | pkg/prototest/fakeclock.go:55-93 | a timer armed with delay d fires in an Advance by a if and only if a is positive and at least d and nobody stops it; otherwise it stays pending unless stopped |
| FakeClockAnswers.AdvanceArms | pkg/prototest/fakeclock.go:55-93 | over a whole Advance, whatever the delays, the timers armed are those the callbacks ask for, in order, each at the deadline of the timer whose callback asked plus the delay, numbered in turn |
| FakeClockAnswers.StopPreventsFire | pkg/prototest/fakeclock.go:167-176 | a pending timer that the i-th callback of an Advance stops does not fire after it |
| FakeClockClass.FakeClock.AdvanceBy | pkg/prototest/fakeclock.go:72-93 | computes Advance |
| FakeClockClass.FakeClock.FlushDue | pkg/prototest/fakeclock.go:117-134 | computes FireDue and reports whether anything fired |
| FakeClockClass.FakeClock.Earliest | pkg/prototest/fakeclock.go:97-109 | the loop computes EarliestDue |
| FakeClockClass.FakeClock.NextDeadline | pkg/prototest/fakeclock.go:138-153 | the least pending deadline, if any timer is pending |
| FakeClockClass.FakeClock.Arm | pkg/prototest/fakeclock.go:55-61 | computes AfterFunc |
| FakeClockClass.FakeClock.Halt | pkg/prototest/fakeclock.go:167-176 | removes the timer and reports whether it was pending |
| FakeClockClass.FakeClock.Delete | pkg/prototest/fakeclock.go:156-163 | removes the timer from the list |
| FoldEngineClass.FoldEngine.WorldAtIndex | viz/src/lib/fold.ts:290-325 | the world at an index is the plain fold of the events up to it, in a fresh object, with the run of events of its step |
| FoldEngineClass.FoldEngine.WorldAtStep | viz/src/lib/fold.ts:328-330 | for step-sorted traces, the fold of exactly the events stamped at or before the step |
| FoldEngineClass.FoldEngine.IndexForStep | viz/src/lib/fold.ts:270-287 | binary search: everything up to the result is at or before the step, everything after it later |
| FoldEngineClass.FoldEngine.Append | viz/src/lib/fold.ts:244-267 | appending keeps every keyframe equal to the plain fold at its index |
| FoldEngineClass.FoldEngine.IngestOne | viz/src/lib/fold.ts:226-238 | one more event is folded, a keyframe kept at every 500th, and no keyframe changes through the cursor, whose containers it does not share |
| FoldMeaning.SessionsAre | viz/src/lib/fold.ts:113-121 | a pair is in session if and only if the last connected, disconnected or failed event of it is connected |
| FoldMeaning.NodesAre | viz/src/lib/fold.ts:109-112 | the nodes are the hosts of node events, each once, by first appearance |
| FoldMeaning.CutsAre | viz/src/lib/fold.ts:165-178 | a pair is cut if and only if the last cut or heal of it is a cut |
| FoldMeaning.IsolationsAre | viz/src/lib/fold.ts:169-182 | a host is isolated if and only if the last isolation or heal of it alone is an isolation |
| FoldMeaning.LossesAre | viz/src/lib/fold.ts:169-190 | a link loses messages with probability p if and only if the last loss or heal of it is a loss that states p, a missing number standing for 1 |
| FoldMeaning.DelaysAre | viz/src/lib/fold.ts:169-195 | a link is delayed with given parameters if and only if the last delay or heal of it is a delay that carries them |
| FoldMeaning.SnapshotsAre | viz/src/lib/fold.ts:125-153 | a snapshot exists if and only if a state was recorded; it holds the last state, the step of its last sighting, and as prev the last different state with the step it was last seen at |
| FoldWorld.WorldState.ApplyEvent | viz/src/lib/fold.ts:107-160 | applying in place, each container mutated where it is, computes Apply, whose fold FoldMeaning describes from the trace alone |
| FoldWorld.WorldState.Clone | viz/src/lib/fold.ts:85-104 | an equal world in which every list, set, map, inner map and slot is a new object |
| FoldWorld.FaultTable.ApplyFaultEvent | viz/src/lib/fold.ts:162-199 | computes ApplyFault on the four fault containers |
| FoldWorld.NodeMap.Record | viz/src/lib/fold.ts:125-153 | creates a node's inner map when missing and records the snapshot in it, leaving the other nodes' maps alone |
| FoldWorld.NodeMap.Clone | viz/src/lib/fold.ts:86-91 | new inner maps with new slots |
| FoldWorld.ProtocolMap.Record | viz/src/lib/fold.ts:132-152 | rotates a changed snapshot, refreshes an unchanged one in place |
| FoldModel.UpToIsPrefix | viz/src/lib/fold.ts:270-287 | the events up to a step form a prefix of a step-sorted trace |
| FoldModel.FoldToPrefix | viz/src/lib/fold.ts:226-267 | the fold to an index depends only on the events before it, so it survives appends |

## Left out

- TCP, QUIC and TLS transports, listeners, goroutine lifetimes, and the session layer's handshake and host maps: the network is the set of packets sent, and `from` is authentic and in the roster.
- Liveness under a schedule: timeouts and backoffs may fire at any time and packets may be lost, so nothing is claimed to happen by itself; what is proved is that timers are armed, wakeups are pending, and from every reachable state a way on exists.
- Torn writes: a single write to Storage is atomic, and durable when it returns.
- MemoryStorage as shipped forgets everything when the process exits; the restart theorems are about a Storage that keeps what it was given.
- Raft and Paxos session bookkeeping, reconnect dialling and DebugState replies: they do not touch consensus state.
- Overflow of 64-bit terms, indices, ballots, sequence numbers and counters: they are natural numbers.
- Raft's Applied stream is exactly-once per incarnation; a restarted server applies from index 1 again, as the source does.
- WireSafety.CodecRoundTrip: nil and empty slices and maps are one value, floats are their bit words, and map keys that are or contain pointers are excluded, because Go compares those by address. The totality, plan correctness and minimum-length results cover such maps too, but their decoded value merges keys of equal content, which Go keeps apart.
- WireLayout.MarshalIsLayout: excludes the same map keys.
- WireSafety.MapEncodingCanonical: float map keys are compared by bit pattern. A Go map with several NaN keys is not represented, and +0 and -0, one key in Go, are two here, so decoding hostile bytes that hold both gives one entry more.
- The reflection behind plans, the plan cache, struct fields that are unexported or tagged out, and named slice or map types that refer to themselves without a struct between.
- Supervisor restarts: the mailbox theorems are about a protocol that is not being quarantined or restarted.
- MailboxClasses.DequeMailbox.Push: its contract is for one thread; what may happen between its two halves is the interleaved model's.
- HyParView's outgoing control messages, the shuffle samples it sends, and its random walk targets: they do not affect its own views; every incoming message is allowed at any time.
- Plumtree restarts, and its initial GetView being answered late: link sets may contain peers that are no longer neighbours.
- FakeClock callbacks that call Advance themselves, its locking, and the stopped flag, which is set in the same step that removes the timer.
- FoldEngineClass.FoldEngine.WorldAtIndex: the linear-scan fallback for a missing keyframe is not modelled, since the keyframe is proved to be there; the trace's aggregate fields (maxStep, rosters) are not either.
- Metrics, logging, tracing, YAML configuration, the protobuf and JSON codecs, the viewer's components and layout, and the command line tools: thin wrappers or presentation.
