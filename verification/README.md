# The ECHO coordinator, modelled and proved in Dafny

This project models the consensus coordinator of `rpi/coordinator/echo_node.py`,
one state machine that runs `raft`, `echo` or `echod`, and the sequential
reconciliation, battery and log code of the simulator. It proves the safety
properties that section "Safety Argument" of `paper/main.tex` (lines 1003-1042)
argues informally and leaves to a machine-checked proof, the properties the
documentation promises for the echoD optimisations, and, where the code does
not keep a promise, a run that breaks it and the condition under which it is
kept. The standard behind it is Raft (Ongaro and Ousterhout, "In Search of an
Understandable Consensus Algorithm", sections 5.2, 5.3 and 5.4; leadership
transfer after section 3.10 of Ongaro's dissertation).

`dafny verify dfyconfig.toml` checks the whole project.

## How the model is built

- `Types`, `Handlers`: the data, the constants of `rpi/config.py`, and every
  handler as a function from a coordinator's state and a message to a new state
  and the packets it sends.
- `Coordinator`: the same code in its own form, the class `EchoCoordinator`
  whose methods assign to fields, loop over peers and entries and put packets
  in an outbox. Each method is proved to do exactly what the function says.
- `Clusters`: any number of coordinators and the set of packets ever sent. The
  set never shrinks and any packet may be delivered any number of times or
  never, so loss, duplication, reordering and partitions are all runs. One
  handler, timer tick or battery check is one atomic step, as in the source,
  where all of them run on one asyncio task. Clock, battery and random timeout are
  arbitrary parameters of each step.
- `Invariants`, `Moves`: the invariants in three layers (elections, logs,
  commits) over a cluster and its history, and the abstract moves of the
  protocol. `Elections`, `Logs`, `Commits` and `Preservation` prove that each
  move keeps each layer, `Refinement` and `Replication` that every handler is a
  chain of moves, `Safety` the theorems about whole runs.
- `Duties`, `Reports`, `Office`, `Handovers`, `Ballots`, `Answers`: what every
  step must bring about, stated of the step and its packets without the handlers'
  own helpers: entries reach every peer, a majority's acks commit, reports are
  forwarded or kept, office replays what was buffered, a handoff goes to the best
  peer, votes and entries are answered.
- `Effects`, `Leadership`, `Forwarding`, `Following`, `CatchUp`: leader beliefs,
  the way of a forwarded report, handoff, LOCAL_LEADER, accepting and replaying
  entries, catching up. `Provenance`: what a packet carries when it is sent, and
  which step created an entry.
- `Ledger`, `Dedup`, `Batching`, `Energy`, `FirstBallot`, `Pacing`, `Timing`:
  conservation of commands, the window of replayed commands, batching against
  ECHO, the energy gate, the battery-ordered ballot, ping clocks and timers, and
  the timed properties.
- `Traces`, `Counterexamples`: runs of a three-node cluster built step by step,
  in which a promise is broken or a theorem fails without its hypothesis.
- `SimulatorLog`, `SimulatorNode`, `Reconciliation`: the simulator's log,
  battery hysteresis and reconciliation, as classes with the functions they are
  proved against.

Two history fields exist that no handler reads: `covered` in an AppendEntries
response (the index of the last entry that the acknowledged message carried)
and `voted` in a cluster (who has held a vote in which term). The hypotheses of
the safety theorems are stated with them.

## Where the code and its documentation differ

- Election safety. The paper argues that the energy gate only strengthens the
  vote predicate. The gate also clears `voted_for` without changing the term
  (`rpi/coordinator/echo_node.py:319-320`), so a node that passes through
  OBSERVER can vote twice in a term, and two nodes can lead it
  (`TwoLeadersOfOneTerm`). It remembers its vote exactly when it re-enters in a
  term in which it has not voted (`ReentryForgets`), which is so whenever it
  re-enters in a later term than the one it left (`LaterReentryIsFresh`). The
  theorems on elections and logs assume that for `echo` and `echod`; in `raft`
  mode they need nothing.
- Commit safety. A follower acknowledges `len(self.log)` (line 599), which can
  exceed what the message covered, and the leader counts success acks of older
  terms (lines 636-654). Each half breaks it in `raft` mode: with every
  counted ack of the leader's own term, but one of them not exact, two nodes
  commit different entries at one index (`TwoCommitsAtOneIndex`); with every
  counted ack exact, but one of them of an older term, a leader commits an entry
  that the next term's leader lacks (`StaleAckLosesCommit`). An ack is exact if and only if the follower did not
  hold more than the leader sent on top of the same log
  (`FaithfulAckCondition`). The commit theorems assume that the success acks a
  leader counts are of its current term and exact.
- "Provisional entries are never committed" (`paper/main.tex:1031-1034`). A node
  that is elected while it is in provisional mode is LEADER, not LOCAL_LEADER,
  and commits entries that carry an epoch (`ProvisionalCommitted`, with every
  ack current and exact). No log ever holds such an entry if and only if no
  coordinator creates an entry while its partition epoch is not 0
  (`ProvisionalExactly`). That condition therefore suffices for none to be
  committed (`NoProvisionalCommit`); it is not necessary, since an entry that is
  created need not be committed (`ProvisionalUncommitted`).
- "The highest-battery coordinator always times out first". It does whenever it
  leads by seven points, and seven is the least margin that suffices
  (`SevenPoints`).
- "The losing side truncates every provisional entry" (`paper/main.tex:1034-1037`).
  The simulator's `reconcile` truncates everything beyond the commit index and
  replays every provisional entry of the whole log. So an uncommitted entry that
  is not provisional is lost (`ReconcileLoses`) and a committed one that is
  provisional is doubled (`ReconcileRepeats`); without a higher commit on the
  winning side nothing is truncated and every provisional entry is doubled
  (`ReconcileRepeatsAlways`). `ReconcileExact` says exactly when the commands
  balance. The paper's conclusion, that the reconciled committed prefix is the
  winner's, holds if and only if both sides agreed on what the loser had
  committed (`AdoptsWinnersPrefix`).

## Model

| member | source | states |
|---|---|---|
| Safety.ElectionSafety | rpi/coordinator/echo_node.py:461-541 | over a whole run, any cluster size and network, at most one node ever leads a term, LOCAL_LEADERs included |
| Safety.ElectionSafetyInRaftMode | rpi/coordinator/echo_node.py:308-312 | in `raft` mode the same with no hypothesis at all |
| Safety.LogMatching | rpi/coordinator/echo_node.py:545-589 | two logs, of any nodes at any times, that hold an entry of the same index and term are identical up to it |
| Safety.LogMatchingInRaftMode | rpi/coordinator/echo_node.py:545-589 | in `raft` mode the same with no hypothesis at all |
| Safety.LeaderCompleteness | rpi/coordinator/echo_node.py:656-673 | what any node holds as committed starts the log of every leader of a later term |
| Safety.StateMachineSafety | rpi/coordinator/echo_node.py:591-593 | no two nodes ever commit different entries at an index, and none changes what it has committed |
| Safety.RaftRunsQualify | rpi/coordinator/echo_node.py:311-312 | every run of a `raft` cluster meets the hypothesis on re-entries |
| Refinement.StepKeeps | rpi/coordinator/echo_node.py:422-457 | every atomic step of the code keeps the election, log and commit invariants and only adds to the history |
| Refinement.RequestVoteMoves | rpi/coordinator/echo_node.py:461-487 | the vote handler, step-down included, keeps the invariants |
| Refinement.VoteResponseMoves | rpi/coordinator/echo_node.py:489-528 | counting a vote, taking office, asserting leadership and flushing keep the invariants |
| Refinement.AppendMoves | rpi/coordinator/echo_node.py:545-601 | the AppendEntries handler keeps the invariants |
| Refinement.AckMoves | rpi/coordinator/echo_node.py:636-673 | recording an ack and advancing the commit index keep the invariants |
| Commits.UpToDateKeeps | rpi/coordinator/echo_node.py:276-280 | the up-to-date check hands every entry that can still be committed from voter to candidate (section 5.4.1) |
| Commits.ElectKeeps | rpi/coordinator/echo_node.py:500-516 | a candidate with a majority holds every entry that can still be committed |
| Commits.AcceptKeeps | rpi/coordinator/echo_node.py:576-593 | replacing a follower's log loses no entry that can still be committed |
| Commits.CommitKeeps | rpi/coordinator/echo_node.py:656-665 | committing an entry of the leader's term that a majority acknowledged keeps the commit invariant |
| Replication.StoreAllMerges | rpi/coordinator/echo_node.py:576-589 | the storing loop leaves the log as it was or makes it the leader's log at send time |
| Replication.StoreAllReplays | rpi/coordinator/echo_node.py:579-587 | the loop cuts at most once, where the log first differs from the leader's, and replays the provisional part of what it cuts |
| Replication.CountIsSize | rpi/coordinator/echo_node.py:660-663 | the ack count is the number of distinct peers that have matched the position |
| Duties.MajorityCommits | rpi/coordinator/echo_node.py:636-673 | after a leader handles a success ack its commit index is the greatest entry of its term that it and peers matched to it, together more than half of the cluster, hold, if that is above the old one, and the old one otherwise |
| Duties.AcksRecorded | rpi/coordinator/echo_node.py:641-654 | every ack leaves the sender's battery on record, a rejection moves next_index one back, at least to 1, and commits nothing |
| Duties.PeersOnce | rpi/coordinator/echo_node.py:139 | in every reachable state a coordinator lists every other node once, so a majority of peers is one of nodes |
| Duties.EntriesReachPeers | rpi/coordinator/echo_node.py:677-709 | in all three protocols, whatever step other than AppendEntries adds to a log sends every peer the whole new log from next_index on, with the leader's commit index, or an empty overshoot when next_index lies beyond it |
| Duties.HeartbeatsReachPeers | rpi/coordinator/echo_node.py:336-342 | a `raft` leader's tick does the same whenever a heartbeat is due, and nothing otherwise |
| Following.AcceptOutcome | rpi/coordinator/echo_node.py:565-589 | in any reachable state AppendEntries leaves the log unchanged or makes it exactly the leader's log at send time, between its logs before and after the step that sent the packet; a failed check changes nothing |
| Provenance.SentSometime | rpi/coordinator/echo_node.py:693-709 | every AppendEntries packet was sent in a step of its leader, in the packet's term, and carries a whole suffix of the log the leader had in that step, or nothing |
| Provenance.FireCarriage | rpi/coordinator/echo_node.py:677-709 | every step either appends only entries of its own index, term and epoch and sends only its own log, or appends nothing of its own and sends no AppendEntries |
| Provenance.ProvisionalExactly | rpi/coordinator/echo_node.py:680-686 | over a run, no log ever holds an entry with a non-zero epoch if and only if no coordinator creates an entry while its partition epoch is not 0 |
| Provenance.NoProvisionalCommit | rpi/coordinator/echo_node.py:656-665 | so under that condition no entry with a non-zero epoch is ever committed |
| Following.CommitMatchesPaper | rpi/coordinator/echo_node.py:591-593 | the new commit index is the paper's min(leaderCommit, index of last new entry), though the code uses the log's length |
| Following.FaithfulAckCondition | rpi/coordinator/echo_node.py:595-601 | a success ack reports no more than was covered if and only if the follower did not hold more than the leader sent on top of it |
| Following.AcceptReplays | rpi/coordinator/echo_node.py:612-634 | an accepting follower sends the new leader all the provisional commands it cut, in order, in one message, and then its ack |
| CatchUp.CatchUp | rpi/coordinator/echo_node.py:649-654 | a stable `raft` leader's heartbeats to one follower are accepted within next_index rounds, whatever its log was, and then the leader's log is a prefix of the follower's |
| CatchUp.RejectedRound | rpi/coordinator/echo_node.py:603-610 | a rejected round changes no log and moves next_index exactly one back; at 1 no round is rejected |
| CatchUp.AcceptedRound | rpi/coordinator/echo_node.py:649-652 | an accepted round leaves the leader's log a prefix of the follower's, match_index at its length, and the commit index advanced accordingly |
| CatchUp.CatchUpAfterElection | rpi/coordinator/echo_node.py:514-516 | a newly elected `raft` leader's heartbeats are accepted within one more round than its log was long when elected |
| CatchUp.ReachablePair | rpi/coordinator/echo_node.py:693-709 | in every reachable `raft` state a leader and a node that no newer term has reached are such a pair |
| CatchUp.RoundIsThreeSteps | rpi/coordinator/echo_node.py:336-342 | a round is three enabled steps of the cluster: timer, heartbeat, ack |
| Leadership.ForwardingEnds | rpi/coordinator/echo_node.py:779-790 | in every reachable state, following leader beliefs from any node visits no node twice |
| Forwarding.HopsGetNewer | rpi/coordinator/echo_node.py:752-790 | along the hops of one report, whatever happens in between, each forwarder's belief is from a strictly later term than the last, one that its target has led by then, so forwarding ends |
| Leadership.HandoffOncePerTerm | rpi/coordinator/echo_node.py:929-934 | across the cluster at most one step of a run sends a handoff of a given term |
| Leadership.HandoffEndsOffice | rpi/coordinator/echo_node.py:929-934 | the sender of a handoff never leads its term in any later state |
| Handovers.HandoffGoesToBest | rpi/coordinator/echo_node.py:905-934 | over all steps a handoff is sent only by the tick of an echoD leader below 20 percent that has not tried in this term, one packet, to the peer of highest known battery, least name among equals, above its own; and one is sent whenever such a leader knows a better charged peer |
| Handovers.HandoffTriedOnce | rpi/coordinator/echo_node.py:351-356 | while a node leads a term its mark of having tried is set by nothing but such a tick and never cleared |
| Handovers.ProvisionalMode | rpi/coordinator/echo_node.py:1056-1069 | outside `raft` a partition opens a new epoch and makes a LEADER a LOCAL_LEADER, a heal leaves epoch 0 and no LOCAL_LEADER, and neither touches another role |
| Handovers.BatteryGate | rpi/coordinator/echo_node.py:308-326 | outside `raft` a node is OBSERVER after the check exactly if its battery is below 15 percent, or it was OBSERVER and is below 25 |
| Office.OfficeReplaysTriggers | rpi/coordinator/echo_node.py:506-528 | the step that brings a node to office tells every peer, starts each at the end of the log with nothing matched, and creates entries that mean its buffered triggers in order, one each in `raft` and `echo`, one batch in `echod` if there are several; none stays buffered |
| Office.LeadersHoldNoTriggers | rpi/coordinator/echo_node.py:838-860 | in every reachable state a node that leads has an empty pending list |
| Reports.NoReportDropped | rpi/coordinator/echo_node.py:772-820 | a report at a node that believes in another is sent on to it unchanged and changes nothing; a leader of `echo` or `echod` suppresses it exactly within the threshold; otherwise its reading is held or in an entry, once |
| Reports.WhereReadingsGo | rpi/coordinator/echo_node.py:787-820 | a reading taken in goes to the pending list while the node does not lead, to the log in `raft` and `echo`, and in `echod` to the buffer, until the tenth makes one entry of all of them |
| Reports.TickFlushes | rpi/coordinator/echo_node.py:822-836 | the buffer of an `echod` leader leaves as one entry, a batch if it holds several readings, at the first tick past its deadline; no other tick adds to a log or touches a buffer |
| Ballots.VoteExactly | rpi/coordinator/echo_node.py:461-487 | a vote request is answered by exactly one packet to its sender, granting if and only if the candidate deserves the vote, and changes only term, vote, role and timer |
| Ballots.CampaignExactly | rpi/coordinator/echo_node.py:378-402 | a node campaigns exactly when its timer has run out or it is nominated, in the next term, voting for itself and asking every peer; no other step asks for votes or makes a CANDIDATE |
| Ballots.VotesDecide | rpi/coordinator/echo_node.py:489-502 | a counted vote makes the candidate LEADER in that step if and only if its voters are more than half of the cluster; a newer term ends the candidacy, anything else is ignored |
| Ballots.NoMajorityWaits | rpi/coordinator/echo_node.py:498-502 | in every reachable state of a cluster of several nodes no CANDIDATE holds the votes of a majority |
| Answers.LeaderObeyed | rpi/coordinator/echo_node.py:565-570 | a ping or AppendEntries of the node's term or a newer one sets its belief, its term and its timer, and ends a candidacy as the code does; one of an older term changes nothing |
| Answers.EntriesAnswered | rpi/coordinator/echo_node.py:545-610 | AppendEntries is always answered to its sender, with success if and only if the term is current and the log holds the previous entry; a rejection changes neither log nor commit index |
| Answers.NewerTermAdopted | rpi/coordinator/echo_node.py:530-541 | whichever of the five messages that bear a term brings a newer one, the node is in it afterwards and neither leads nor stands |
| Answers.ProvisionalInOrder | rpi/coordinator/echo_node.py:612-634 | what a cut part of a log gives to replay is one command for each entry with an epoch, in the order of the log |
| Answers.UnseenReplayed | rpi/coordinator/echo_node.py:862-901 | a leader that is sent provisional commands creates entries that mean exactly those new to its window, in order, one each in `raft` and `echo`, one batch in `echod` if there are several; nobody else does anything |
| Leadership.NomineeCampaignsHigher | rpi/coordinator/echo_node.py:936-949 | a nominee that answers campaigns in a term above the handoff's and its own |
| Leadership.LocalLeaderCommitsNothing | rpi/coordinator/echo_node.py:646-652 | a LOCAL_LEADER's commit index is frozen for as long as it stays LOCAL_LEADER |
| Ledger.CommandsConserved | rpi/coordinator/echo_node.py:787-901 | over any run each command a node took in sits exactly once in its pending list, its batch buffer or one entry it created, as multisets under flattening |
| Ledger.FireAccounts | rpi/coordinator/echo_node.py:810-860 | every step balances what is taken in, held and put in entries, and outside AppendEntries a log only grows |
| Ledger.BatchBounded | rpi/coordinator/echo_node.py:814-836 | in every reachable state the buffer is below MAX_BATCH_SIZE and its deadline is set exactly when it is not empty |
| Ledger.ReplicateAllEntries | rpi/coordinator/echo_node.py:859-860 | replicating a list creates one entry for each item, in order, with the right index, term and epoch |
| Dedup.ScreenKeepsUnseen | rpi/coordinator/echo_node.py:875-880 | screening lets through each command not in the window once, in the order of first occurrence, and appends exactly those |
| Dedup.ReplaysFarApart | rpi/coordinator/echo_node.py:873-901 | over any run the window is a duplicate-free suffix of the replayed commands, at least 101 long if there were as many, and two replays of one command have at least 101 others between them |
| Dedup.BoundedWindow | rpi/coordinator/echo_node.py:881-882 | over any run in which each message brings at most 100 new commands, every window stays within 200 |
| Batching.BatchingRefinesEcho | rpi/coordinator/echo_node.py:810-836 | for the same reports at a continuous leader, flushes anywhere and any buffer to start with, echoD's new entries flattened and its buffer are what was buffered and then exactly ECHO's commands in order, in no more entries than ECHO's but one for a leftover buffer |
| Batching.WindowCloses | rpi/coordinator/echo_node.py:344-346 | after a timer event all that is buffered was accepted less than BATCH_WINDOW_S before |
| Batching.FilterTracksAccepted | rpi/coordinator/echo_node.py:797-808 | a leader suppresses a report exactly when it is within the threshold of the last one it accepted from that sensor, however many it suppressed in between |
| Energy.LeadersWereCharged | rpi/coordinator/echo_node.py:469-502 | over any run of `echo` or `echod` with two or more coordinators, every leader's vote requests of its term carried a battery of at least T_LOW, though only voters check it |
| Energy.RequestCarriesSample | rpi/coordinator/echo_node.py:386-402 | the battery in a vote request is the one sampled when the election started |
| Energy.ReentryForgets | rpi/coordinator/echo_node.py:314-326 | a re-entering OBSERVER remembers that it has voted if and only if it has not voted in that term; otherwise it grants a second vote to any qualified candidate |
| Energy.LaterReentryIsFresh | rpi/coordinator/echo_node.py:321-326 | an OBSERVER that re-enters in a later term than the one it left has not voted in it, so only re-entry in the same term can forget a vote |
| FirstBallot.EarlierDeadline | rpi/coordinator/echo_node.py:252-261 | which of two timers reset together ends first: a battery point is worth 24 ms against the tie-breaks |
| FirstBallot.SevenPoints | rpi/coordinator/echo_node.py:248-250 | a lead of a given margin decides whatever the tie-breaks if and only if the margin is at least seven points |
| FirstBallot.BallotElects | rpi/coordinator/echo_node.py:378-402 | a candidate whose battery suffices wins the ballot it starts if a majority are awake with no newer term and no better log |
| FirstBallot.FirstBallotWins | rpi/coordinator/echo_node.py:461-502 | seven points ahead, for 19 ms after its deadline no other timer starts an election, and a ballot delivered in that time elects it |
| Timing.PingIntervalBounded | rpi/coordinator/echo_node.py:731-737 | in every reachable state the ping interval lies between the base and the cap |
| Timing.IdleBacksOff | rpi/coordinator/echo_node.py:733-737 | an idle leader's interval doubles to the cap within two pings and stays there |
| Timing.ActivitySnapsBack | rpi/coordinator/echo_node.py:731-732 | if a leader's log has grown since the last ping, by any of its steps or by its timer's flush, the interval after the next ping is the base |
| Pacing.LeaderTickPings | rpi/coordinator/echo_node.py:347-360 | a leader's tick pings every peer when a ping is due, and only then resets the ping clock |
| Pacing.LeaderActs | rpi/coordinator/echo_node.py:422-457 | whatever else a leader handles, if it leads its term afterwards its ping clock is as before, and an entry it created counts as activity |
| Pacing.FollowerActs | rpi/coordinator/echo_node.py:530-602 | whatever a follower handles up to its leader's term, nominations aside, it stays follower or OBSERVER and its timer is left alone or reset to at least the shortest timeout |
| Timing.NoSpuriousElection | rpi/coordinator/echo_node.py:752-758 | if cap, timer slack and delivery delay together stay below the shortest timeout, a follower never starts a timeout election in any number of events, whatever the order of arrival and whatever other steps the two take while the leader leads its term and nothing newer and no nomination reaches the follower |
| Timing.WatchStarts | rpi/coordinator/echo_node.py:244-264 | handling one ping of a leader that pings establishes the premise |
| Counterexamples.TwoLeadersOfOneTerm | rpi/coordinator/echo_node.py:319-326 | an `echo` run in which two nodes lead one term |
| Counterexamples.SurplusAckLosesCommit | rpi/coordinator/echo_node.py:595-601 | a `raft` run with every ack current in which a leader commits an entry that the next term's leader lacks |
| Counterexamples.TwoCommitsAtOneIndex | rpi/coordinator/echo_node.py:636-654 | a `raft` run with every ack current in which two nodes commit different entries at one index |
| Counterexamples.StaleAckLosesCommit | rpi/coordinator/echo_node.py:636-654 | a `raft` run with every ack exact in which a leader counts an ack of an older term and commits an entry that the next term's leader lacks |
| Counterexamples.ProvisionalCommitted | rpi/coordinator/echo_node.py:506-507 | an `echo` run with every ack current and exact in which a LEADER commits an entry with a non-zero epoch |
| Counterexamples.ProvisionalUncommitted | rpi/coordinator/echo_node.py:1056-1063 | an `echo` run in which an entry with a non-zero epoch is created and nothing is committed |
| Coordinator.EchoCoordinator.constructor | rpi/coordinator/echo_node.py:122-192 | a new coordinator is in the initial state, without itself among its peers |
| Coordinator.EchoCoordinator.ResetTimer | rpi/coordinator/echo_node.py:244-264 | the new election deadline |
| Coordinator.EchoCoordinator.CheckBattery | rpi/coordinator/echo_node.py:308-326 | the battery gate |
| Coordinator.EchoCoordinator.SendAppendEntries | rpi/coordinator/echo_node.py:693-709 | one AppendEntries packet, and no change of state |
| Coordinator.EchoCoordinator.SendHeartbeats | rpi/coordinator/echo_node.py:713-716 | one packet for each peer, in order |
| Coordinator.EchoCoordinator.ReplicateEntry | rpi/coordinator/echo_node.py:677-691 | the appended entry and the packets sent |
| Coordinator.EchoCoordinator.FlushPendingTriggers | rpi/coordinator/echo_node.py:838-860 | the replay of buffered triggers, one batch in echoD |
| Coordinator.EchoCoordinator.FlushBatch | rpi/coordinator/echo_node.py:822-836 | the flush of the batch buffer |
| Coordinator.EchoCoordinator.SendLivenessPing | rpi/coordinator/echo_node.py:718-742 | the pings and the adapted interval |
| Coordinator.EchoCoordinator.HandleLivenessPing | rpi/coordinator/echo_node.py:752-758 | the new belief, term and deadline |
| Coordinator.EchoCoordinator.StepDown | rpi/coordinator/echo_node.py:530-541 | the new term, role, vote and deadline |
| Coordinator.EchoCoordinator.StartElection | rpi/coordinator/echo_node.py:378-402 | the candidacy and the requests sent |
| Coordinator.EchoCoordinator.HandleRequestVote | rpi/coordinator/echo_node.py:461-487 | the vote and the response |
| Coordinator.EchoCoordinator.HandleVoteResponse | rpi/coordinator/echo_node.py:489-502 | the count, and office with a majority |
| Coordinator.EchoCoordinator.BecomeLeader | rpi/coordinator/echo_node.py:506-528 | office, first packets and the flush of triggers |
| Coordinator.EchoCoordinator.InitReplicationState | rpi/coordinator/echo_node.py:514-516 | next_index and match_index of every peer |
| Coordinator.EchoCoordinator.StoreEntries | rpi/coordinator/echo_node.py:576-589 | the log after the storing loop and the replays sent |
| Coordinator.EchoCoordinator.ReplayProvisional | rpi/coordinator/echo_node.py:612-634 | the reconciliation message, if one is due |
| Coordinator.EchoCoordinator.HandleAppendEntries | rpi/coordinator/echo_node.py:545-601 | all branches of the handler: rejections, acceptance, commit index, ack |
| Coordinator.EchoCoordinator.HandleAppendResponse | rpi/coordinator/echo_node.py:636-654 | all branches of the ack handler |
| Coordinator.EchoCoordinator.TryAdvanceCommit | rpi/coordinator/echo_node.py:656-673 | the commit index after the downward scan |
| Coordinator.EchoCoordinator.HandleSensorData | rpi/coordinator/echo_node.py:772-820 | forwarding, buffering, filtering, batching and replication of a report |
| Coordinator.EchoCoordinator.HandleReconcileBatch | rpi/coordinator/echo_node.py:862-901 | the window of replayed commands and the entries created |
| Coordinator.EchoCoordinator.ScreenCommands | rpi/coordinator/echo_node.py:875-882 | the unseen commands and the trimmed window |
| Coordinator.EchoCoordinator.ChooseSuccessor | rpi/coordinator/echo_node.py:913-921 | the first of the sorted candidates |
| Coordinator.EchoCoordinator.InitiateHandoff | rpi/coordinator/echo_node.py:905-934 | the handoff, or remaining leader |
| Coordinator.EchoCoordinator.HandleLeadershipHandoff | rpi/coordinator/echo_node.py:936-949 | the nominee's election |
| Coordinator.EchoCoordinator.HandlePartitionControl | rpi/coordinator/echo_node.py:953-995 | entering and leaving provisional mode, not in `raft` |
| Coordinator.EchoCoordinator.EnterProvisionalMode | rpi/coordinator/echo_node.py:1056-1063 | the next epoch, and LOCAL_LEADER for a leader |
| Coordinator.EchoCoordinator.ExitProvisionalMode | rpi/coordinator/echo_node.py:1065-1069 | epoch 0, and FOLLOWER for a LOCAL_LEADER |
| Coordinator.EchoCoordinator.LeaderTick | rpi/coordinator/echo_node.py:336-360 | heartbeat, batch flush, ping and handoff of each protocol |
| Coordinator.EchoCoordinator.Tick | rpi/coordinator/echo_node.py:330-363 | the tick of every role |
| Coordinator.EchoCoordinator.Dispatch | rpi/coordinator/echo_node.py:438-453 | every message reaches its handler |
| SimulatorLog.ReplicatedLog.Get | simulation/core/log.py:34-38 | the entry at a 1-based index, none exactly when out of range |
| SimulatorLog.ReplicatedLog.EntriesFrom | simulation/core/log.py:40-44 | the rest of the log from a position, for positions before and beyond it too |
| SimulatorLog.ReplicatedLog.Append | simulation/core/log.py:53-55 | the log with the entry at its end |
| SimulatorLog.ReplicatedLog.TruncateFrom | simulation/core/log.py:61-67 | the log before the index; other indices change nothing |
| SimulatorLog.ReplicatedLog.Commit | simulation/core/log.py:69-80 | the commit index and the newly committed entries |
| SimulatorLog.AppliedOnce | simulation/core/log.py:53-80 | over any calls that truncate nothing committed, the commit calls together return each committed entry once, in order |
| SimulatorLog.CommitIsFurthest | simulation/core/log.py:69-80 | under the same condition the commit index is the furthest that any commit call reached within the log it found |
| SimulatorLog.ReplicatedLog.Store | simulation/core/coordinator.py:247-253 | the log after the simulator's storing loop |
| SimulatorLog.StoresAlike | simulation/core/coordinator.py:247-253 | that loop and the deployed coordinator's leave the same log for any entries |
| SimulatorLog.ReplicatedLog.ChecksDiffer | simulation/core/coordinator.py:236-245 | the two consistency checks differ exactly on positions beyond the log with term 0 |
| SimulatorNode.SimNode.TickBattery | simulation/core/node.py:189-207 | the clamped battery and the OBSERVER transitions |
| SimulatorNode.SimNode.StepDown | simulation/core/node.py:209-216 | term, vote and role after a step-down |
| SimulatorNode.HysteresisBound | simulation/core/node.py:201-207 | ten percentage points for each return from OBSERVER come out of the total charge added |
| SimulatorNode.ObserverAbsorbing | simulation/core/node.py:205-207 | with no recharge a node that has become OBSERVER stays OBSERVER |
| SimulatorNode.RoleFollowsBattery | simulation/core/node.py:189-207 | over any events a coordinator is OBSERVER exactly if its battery was below the band of 15 to 25 percent when a tick last found it outside, and then has no vote |
| SimulatorNode.NewTermHumbles | simulation/core/node.py:209-216 | a newer term ends every office and candidacy of a coordinator and takes its vote back |
| Reconciliation.Coordinator.ReplicateEntry | simulation/core/coordinator.py:308-321 | the appended entry |
| Reconciliation.Coordinator.FlushPendingTriggers | simulation/protocols/echod.py:371-392 | the replay of pending triggers, one entry each in ECHO and one batch in echoD |
| Reconciliation.Coordinator.EnterProvisionalMode | simulation/protocols/echo.py:150-163 | the next epoch, and LOCAL_LEADER for a leader |
| Reconciliation.Coordinator.ExitProvisionalMode | simulation/protocols/echo.py:165-171 | epoch 0, and FOLLOWER for a LOCAL_LEADER |
| Reconciliation.Coordinator.Reconcile | simulation/protocols/echo.py:173-198 | the state after truncation, adoption, exit and replay |
| Reconciliation.FlushedEntries | simulation/protocols/echo.py:142-146 | a flush appends entries that mean the pending commands in order, one each in ECHO, and in echoD one batch if there are several |
| Reconciliation.ReconciledEntries | simulation/protocols/echo.py:182-198 | in every case, the merged log and then replays with epoch 0 that mean what was pending and every provisional command |
| Reconciliation.ReconcilePreservesMeaning | simulation/protocols/echo.py:173-198 | old committed prefix, winner's entries and replays, correctly indexed; ECHO and echoD agree once flattened, one entry per command against at most one |
| Reconciliation.ReconcileBalance | simulation/protocols/echo.py:182-192 | exactly which commands the result doubles and which it lacks |
| Reconciliation.ReconcileDoubles | simulation/protocols/echo.py:186-198 | with no higher commit on the winning side every provisional command is doubled |
| Reconciliation.ReconcileExact | simulation/protocols/echo.py:182-198 | exactly when the result holds the two sides' commands and no others, in both cases |
| Reconciliation.ReconcileLoses | simulation/protocols/echo.py:186-192 | an input on which a command is lost |
| Reconciliation.ReconcileRepeats | simulation/protocols/echo.py:182-198 | an input on which a committed command is doubled |
| Reconciliation.ReconcileRepeatsAlways | simulation/protocols/echo.py:186-198 | an input without a higher commit on which a command is doubled |
| Reconciliation.AdoptsWinnersPrefix | simulation/protocols/echo.py:186-190 | the reconciled committed prefix is exactly the winner's if and only if both sides agreed on what the loser had committed |
| Reconciliation.PartitionMarks | simulation/protocols/echo.py:150-171 | over a partition and its heal, the commands proposed in between are exactly those the log holds as provisional, and of the roles only an office is lost |
| Reconciliation.ReconciledRole | simulation/protocols/echo.py:182-198 | reconciliation leaves no LOCAL_LEADER and changes no other role |

## Left out

- Safety.ElectionSafety: assumes that an OBSERVER re-enters only in a term in which it has not voted, because otherwise it is false of the code (`TwoLeadersOfOneTerm`).
- Safety.LogMatching: assumes the same, since two leaders of one term may append different entries at one index.
- Safety.LeaderCompleteness: assumes in addition that the success acks a leader counts are of its current term and exact, because otherwise it is false of the code (`SurplusAckLosesCommit`, `StaleAckLosesCommit`).
- Safety.StateMachineSafety: assumes the same, because otherwise it is false of the code (`TwoCommitsAtOneIndex`).
- Following.CommitMatchesPaper: assumes the same, since a commit index beyond the leader's log would void it.
- Timing.NoSpuriousElection: covers the pings of `echo` and `echod`; `raft` mode has AppendEntries heartbeats instead. No ping may be lost, and nothing of a newer term and no nomination arrive, while the follower is watched.
- SimulatorLog.CommitIsFurthest: assumes the same as `AppliedOnce`, because a commit beyond a log truncated below its commit index moves the index back.
- SimulatorLog.AppliedOnce: assumes that no call truncates what is committed; the log itself does not prevent it.
- Coordinator.EchoCoordinator.HandlePartitionControl: does not model the list of blocked senders, because dropping packets is already possible for every packet, nor the unknown action, which does nothing.
- Coordinator.EchoCoordinator.Dispatch: does not dispatch `leaf_register`, `partition_control` and `demo_control`, because the first only registers leaves, the second is a step of its own and the third only changes the mock battery.
- Reconciliation.Coordinator.ReplicateEntry: does not model the packets to peers, because reconciliation appends while FOLLOWER and only the log is modelled there.
- CatchUp.CatchUp: the leader only heartbeats and reads its acks; no new entry arrives at it in between.
- Crash and restart: the code keeps nothing on disk. A node that takes no more steps has crashed.
- Transport, MQTT, JSON, queues and threads: represented by the set of packets; the JSON key of a reconciled command is equality of commands; a handler's packets are a set in the cluster, though a list in the handler.
- Clock and battery: each step reads one battery level and one clock value, with a second later reading where the code takes one (`Env.lag`); nothing in the cluster model makes clocks agree or advance, the timed theorems say what they need.
- Floating-point rounding: times, deltas and simulator batteries are reals. `crc32` is an arbitrary tie-break of 0 to 149 ms.
- Coordinator names are numbers; only equality and the order that breaks ties between successors matter.
- `trigger_type` and `partition_epoch` of AppendEntries messages, entry timestamps: no coordinator handler reads them.
- Leaf registration, keepalives, the ESP32 firmware and the edge filter on leaves: easy members.
- Counters, latency bookkeeping, status publishing, metrics, workload generation and demo controls: no hard property.
- The simulator's election, ack and ping handlers: the deployed coordinator's are modelled instead; its storing loop, consistency check, reconciliation, flush, log and battery code are modelled.
- `election_score` in `simulation/core/coordinator.py`: no decision uses it.
