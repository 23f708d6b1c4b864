/** What a step must do for replication: a new entry goes to every peer, and a
    majority's acks commit. Stated of whole steps. */
module Duties {
  import opened Types
  import opened Handlers
  import opened Clusters
  import opened Invariants
  import opened Ledger
  import CatchUp
  import Provenance
  import Refinement
  import Replication

  // ------------------------------------------------------------- replication

  /** The packet brings p the node's whole log, from p's next_index on, and its
      commit index. With next_index beyond the log it brings nothing. */
  predicate Brings(s: Node, m: Packet, p: NodeId) {
    && m.src == s.id && m.dst == To(p) && m.payload.AppendEntries?
    && m.payload.term == s.term && m.payload.leader == s.id && m.payload.leaderCommit == s.commit
    && m.payload.prevIndex + 1 == (if p in s.nextIndex then s.nextIndex[p] else 1)
    && (if m.payload.prevIndex <= |s.log| then Covered(m.payload) == |s.log| && Carries(m.payload, s.log)
        else Overshoot(m.payload))
  }

  ghost predicate Reached(s: Node, sent: seq<Packet>, p: NodeId) {
    exists m :: m in sent && Brings(s, m, p)
  }

  ghost predicate ReachesAll(s: Node, sent: seq<Packet>) {
    forall p :: p in s.peers ==> Reached(s, sent, p)
  }

  /** If the step appends, every peer is sent the new log. */
  ghost predicate Replicating(s: Node, o: Out) {
    s.log <= o.node.log && (o.node.log != s.log ==> ReachesAll(o.node, o.sent))
  }

  /** What Brings speaks of is the same in both states. */
  predicate SameSender(s: Node, s': Node) {
    && s'.id == s.id && s'.term == s.term && s'.log == s.log && s'.commit == s.commit
    && s'.nextIndex == s.nextIndex && s'.peers == s.peers
  }

  lemma BeatsReach(s: Node)
    ensures ReachesAll(s, Heartbeats(s))
  {
    forall p | p in s.peers ensures Reached(s, Heartbeats(s), p) {
      CatchUp.BeatSent(s, p);
      assert Brings(s, AppendTo(s, p), p);
    }
  }

  lemma ReachMore(s: Node, s': Node, before: seq<Packet>, sent: seq<Packet>, after: seq<Packet>)
    requires ReachesAll(s, sent) && SameSender(s, s')
    ensures ReachesAll(s', before + sent + after)
  {
    forall p | p in s'.peers ensures Reached(s', before + sent + after, p) {
      assert Reached(s, sent, p);
      var m :| m in sent && Brings(s, m, p);
      assert m in before + sent + after && Brings(s', m, p);
    }
  }

  lemma ReplicateReaches(s: Node, command: Command, trigger: Trigger)
    ensures Replicating(s, Replicate(s, command, trigger))
  {
    hide Heartbeats;
    BeatsReach(Replicate(s, command, trigger).node);
  }

  lemma {:induction false} ReplicateAllReaches(s: Node, proposals: seq<(Command, Trigger)>)
    ensures Replicating(s, ReplicateAll(s, proposals))
    decreases |proposals|
  {
    hide Replicate, ReachesAll;
    if proposals != [] {
      var first := Replicate(s, proposals[0].0, proposals[0].1);
      var rest := ReplicateAll(first.node, proposals[1..]);
      ReplicateReaches(s, proposals[0].0, proposals[0].1);
      ReplicateAllReaches(first.node, proposals[1..]);
      if proposals[1..] == [] {
        assert rest == Out(first.node, []) && first.sent + [] == first.sent;
      } else {
        ReplicateAllGrows(first.node, proposals[1..]);
        ReachMore(rest.node, rest.node, first.sent, rest.sent, []);
        assert first.sent + rest.sent + [] == first.sent + rest.sent;
      }
    }
  }

  lemma ReplicateAllGrows(s: Node, proposals: seq<(Command, Trigger)>)
    requires proposals != []
    ensures ReplicateAll(s, proposals).node.log != s.log
  {
    ReplicateAllEntries(s, proposals);
    assert |NewEntries(s, proposals)| == |proposals|;
  }

  lemma FlushPendingReaches(s: Node, env: Env)
    ensures Replicating(s, FlushPending(s, env))
  {
    hide Replicate, ReplicateAll, ReachesAll;
    var s1 := s.(pending := [], lastActivity := Later(env));
    if s.pending != [] {
      ReplicateReaches(s1, Batch(Commands(s.pending), |s.pending|), s.pending[0].1);
      ReplicateAllReaches(s1, s.pending);
    }
  }

  lemma FlushBatchReaches(s: Node, env: Env)
    ensures Replicating(s, FlushBatch(s, env))
  {
    hide Replicate, ReachesAll;
    if s.batch != [] {
      var s1 := s.(batch := [], batchDeadline := None, lastActivity := env.now);
      ReplicateReaches(s1, if |s.batch| == 1 then s.batch[0] else Batch(s.batch, |s.batch|), Delta);
    }
  }

  lemma EnqueueReaches(s: Node, command: Command, env: Env)
    ensures Replicating(s, Enqueue(s, command, env))
  {
    hide FlushBatch, ReachesAll;
    FlushBatchReaches(s.(batch := s.batch + [command],
      batchDeadline := if s.batchDeadline == None then Some(env.now + BATCH_WINDOW) else s.batchDeadline), env);
  }

  lemma SensorReaches(s: Node, p: Payload, env: Env)
    requires p.SensorData?
    ensures Replicating(s, HandleSensor(s, p, env))
  {
    hide Replicate, Enqueue, Filtered, SensorKey, ReachesAll;
    var s1 := s.(lastSensor := s.lastSensor[SensorKey(p) := p.value]);
    ReplicateReaches(s, ReadingOf(p), Event);
    ReplicateReaches(s1, ReadingOf(p), Delta);
    EnqueueReaches(s1, ReadingOf(p), env);
  }

  lemma ReconcileReaches(s: Node, p: Payload, env: Env)
    requires p.ReconcileBatch?
    ensures Replicating(s, HandleReconcile(s, p, env))
  {
    hide Replicate, ReplicateAll, Screen, Tagged, ReachesAll;
    var (window, unseen) := Screen(s.recent, p.commands);
    var s2 := s.(recent := Trim(window), lastActivity := env.now);
    ReplicateReaches(s2, Batch(unseen, |unseen|), Reconcile);
    ReplicateAllReaches(s2, Tagged(unseen, Reconcile));
  }

  lemma OfficeReaches(s: Node, env: Env)
    ensures Replicating(s, BecomeLeader(s, env))
  {
    hide SetAll, FlushPending, Heartbeats, SendPing, ReachesAll;
    var o1 := AssertLeadership(AssumeOffice(s, env));
    PingStill(AssumeOffice(s, env));
    var o2 := FlushPending(o1.node, env);
    FlushPendingReaches(o1.node, env);
    if o2.node.log != s.log {
      ReachMore(o2.node, o2.node, o1.sent, o2.sent, []);
      assert o1.sent + o2.sent + [] == o1.sent + o2.sent;
    }
  }

  lemma TickReaches(s: Node, env: Env)
    ensures Replicating(s, LeaderTick(s, env))
  {
    hide FlushBatch, PingIfDue, HandoffIfLow, ReachesAll;
    PingSender(s, RAFT_HEARTBEAT_INTERVAL, env);
    PingSender(s, LIVENESS_PING_INTERVAL, env);
    if s.protocol == EchoD {
      var o1 := FlushIfDue(s, env);
      FlushBatchReaches(s, env);
      PingSender(o1.node, o1.node.pingInterval, env);
      var o2 := PingIfDue(o1.node, o1.node.pingInterval, env);
      HandoffSender(o2.node, env);
      var o3 := HandoffIfLow(o2.node, env);
      if o1.node.log != s.log {
        ReachMore(o1.node, o3.node, [], o1.sent, o2.sent + o3.sent);
        assert [] + o1.sent + (o2.sent + o3.sent) == o1.sent + o2.sent + o3.sent;
      }
    }
  }

  lemma PingSender(s: Node, interval: real, env: Env)
    ensures SameSender(s, PingIfDue(s, interval, env).node)
  {
    hide Heartbeats, SendPing;
    SendPingSender(s);
  }

  lemma SendPingSender(s: Node)
    ensures SameSender(s, SendPing(s).node)
  {
  }

  lemma HandoffSender(s: Node, env: Env)
    ensures SameSender(s, HandoffIfLow(s, env).node)
  {
    hide Successor, NewElectionDeadline;
  }

  /** Every entry goes to every peer: whenever a step other than taking a leader's
      entries changes the log, in any protocol, it sends each peer the whole new
      log from its next_index on. */
  lemma EntriesReachPeers(s: Node, a: Action)
    requires a.LeafReport? ==> a.report.SensorData?
    requires !TakesEntries(a) && Fire(s, a).node.log != s.log
    ensures s.log < Fire(s, a).node.log && ReachesAll(Fire(s, a).node, Fire(s, a).sent)
  {
    hide Dispatch, HandleSensor, LeaderTick, StartElection, CheckBattery, Handlers.HandlePartitionControl, ReachesAll;
    match a {
      case Deliver(_, _, _) => DeliveryReaches(s, a);
      case LeafReport(_, env, report) => SensorReaches(s, report, env);
      case TimerTick(_, env) =>
        TickReaches(s, env);
        CampaignStill(s, env);
      case BatteryCheck(_, env) => CheckStill(s, env);
      case PartitionControl(_, _, heal) => PartitionStill(s, heal);
    }
  }

  lemma DeliveryReaches(s: Node, a: Action)
    requires a.Deliver? && !TakesEntries(a) && Fire(s, a).node.log != s.log
    ensures Replicating(s, Fire(s, a))
  {
    hide HandleRequestVote, HandleVoteResponse, HandleAppendEntries, HandleAppendResponse,
      HandlePing, HandleSensor, HandleHandoff, HandleReconcile, ReachesAll;
    var sender, p, env := a.packet.src, a.packet.payload, a.env;
    match p {
      case RequestVote(_, _, _, _, _) => RequestVoteStill(s, sender, p, env);
      case VoteResponse(_, _, _, _) => ResponseReaches(s, sender, p, env);
      case AppendResponse(_, _, _, _, _, _) => AckStill(s, sender, p, env);
      case LivenessPing(_, _) => PingHeardStill(s, p, env);
      case SensorData(_, _, _) => SensorReaches(s, p, env);
      case LeadershipHandoff(_, _) => HandoffStill(s, p, env);
      case ReconcileBatch(_, _, _) => ReconcileReaches(s, p, env);
    }
  }

  lemma ResponseReaches(s: Node, sender: NodeId, p: Payload, env: Env)
    requires p.VoteResponse?
    ensures Replicating(s, HandleVoteResponse(s, sender, p, env))
  {
    hide StepDown, BecomeLeader, ReachesAll;
    StepDownStill(s, p.term, env);
    OfficeReaches(if p.granted then s.(votes := s.votes[sender := p.battery]) else s, env);
  }

  /** A `raft` leader's tick sends every peer the same when a heartbeat is due, and
      notes the time; when none is due it does nothing. */
  lemma HeartbeatsReachPeers(s: Node, env: Env)
    requires s.protocol == Raft && Leads(s.role)
    ensures var o := Fire(s, TimerTick(s.id, env));
      if env.now - s.lastPing >= RAFT_HEARTBEAT_INTERVAL then
        o.node == s.(lastPing := env.now) && ReachesAll(o.node, o.sent)
      else o == Out(s, [])
  {
    hide Heartbeats, ReachesAll, FlushIfDue, HandoffIfLow;
    BeatsReach(s);
    ReachMore(s, s.(lastPing := env.now), [], Heartbeats(s), []);
    assert [] + Heartbeats(s) + [] == Heartbeats(s);
  }

  // -------------------------------------------------------------- commitment

  /** The leader and the peers that have matched entry n are a majority, and the
      entry is of the leader's term. */
  predicate Agreed(s: Node, n: nat) {
    && 1 <= n <= |s.log| && s.log[n - 1].term == s.term
    && 2 * (1 + |Replication.Matched(s.peers, s.matchIndex, n)|) > |s.peers| + 1
  }

  ghost predicate NoRepeats(xs: seq<NodeId>) {
    forall i, j :: 0 <= i < j < |xs| ==> xs[i] != xs[j]
  }

  lemma AgreedIffCommittable(s: Node, n: nat)
    requires NoRepeats(s.peers) && 1 <= n <= |s.log|
    ensures Agreed(s, n) <==> Committable(s, n)
  {
    Replication.CountIsSize(s.peers, s.matchIndex, n);
  }

  lemma AdvanceCommits(s: Node)
    requires NoRepeats(s.peers)
    ensures var s' := AdvanceCommit(s);
      && s' == s.(commit := s'.commit)
      && (s'.commit == s.commit || (s.commit < s'.commit && Agreed(s, s'.commit)))
      && (forall n :: s.commit < n && Agreed(s, n) ==> n <= s'.commit)
  {
    hide CommitPoint, Committable, Agreed;
    var k := AdvanceCommit(s).commit;
    Refinement.CommitPointChoice(s, |s.log|);
    if k > s.commit { AgreedIffCommittable(s, k); }
    forall n | s.commit < n && Agreed(s, n) ensures n <= k {
      assert 1 <= n <= |s.log| by { AgreedInLog(s, n); }
      AgreedIffCommittable(s, n);
      Replication.CommitPointIsGreatest(s, |s.log|);
    }
  }

  lemma AgreedInLog(s: Node, n: nat)
    requires Agreed(s, n)
    ensures 1 <= n <= |s.log|
  {
  }

  /** The step delivers an ack that the node does not step down for. */
  predicate TakesAck(s: Node, a: Action) {
    a.Deliver? && a.packet.payload.AppendResponse? && a.packet.payload.term <= s.term
  }

  /** A majority's acks commit: after a leader has recorded a success ack, its
      commit index is the greatest entry of its term that it and a majority have
      matched, if that is above the old one, and the old one otherwise. */
  lemma MajorityCommits(s: Node, a: Action)
    requires NoRepeats(s.peers) && TakesAck(s, a) && a.packet.payload.success && s.role == Leader
    ensures var s', p, peer := Fire(s, a).node, a.packet.payload, a.packet.src;
      && s'.log == s.log && s'.term == s.term && s'.role == Leader && s'.peers == s.peers
      && s'.matchIndex == s.matchIndex[peer := p.matchIndex]
      && s'.nextIndex == s.nextIndex[peer := (p.matchIndex + 1) as pos]
      && (s'.commit == s.commit || (s.commit < s'.commit && Agreed(s', s'.commit)))
      && (forall n :: s.commit < n && Agreed(s', n) ==> n <= s'.commit)
  {
    hide AdvanceCommit;
    var p, peer := a.packet.payload, a.packet.src;
    var s1 := s.(peerBatteries := s.peerBatteries[peer := p.battery],
                 nextIndex := s.nextIndex[peer := (p.matchIndex + 1) as pos],
                 matchIndex := s.matchIndex[peer := p.matchIndex]);
    AdvanceCommits(s1);
    AgreedSame(s1, AdvanceCommit(s1));
  }

  lemma AgreedSame(s: Node, s': Node)
    requires s' == s.(commit := s'.commit)
    ensures forall n :: Agreed(s', n) <==> Agreed(s, n)
  {
  }

  /** In every reachable state a coordinator lists no peer twice, so the above
      holds of every leader of every run. */
  lemma PeersOnce(run: seq<Cluster>, acts: seq<Action>, n: NodeId)
    requires IsRun(run, acts) && n in run[|acts|].nodes
    ensures NoRepeats(run[|acts|].nodes[n].peers)
    ensures Elements(run[|acts|].nodes[n].peers) == run[|acts|].nodes.Keys - {n}
  {
    hide Init, Apply, Enabled;
    Provenance.ConfiguredThroughout(run, acts);
    var c := run[|acts|];
    assert ConfiguredNode(c, n);
    PeersCounted(c, n);
    Replication.NoRepeats(c.nodes[n].peers);
  }

  lemma PeersCounted(c: Cluster, n: NodeId)
    requires n in c.nodes && ConfiguredNode(c, n)
    ensures |Elements(c.nodes[n].peers)| == |c.nodes[n].peers|
  {
    assert c.nodes.Keys == (c.nodes.Keys - {n}) + {n};
  }

  /** A rejection moves next_index one back and commits nothing; and every ack, in
      any role, leaves the sender's battery on record. */
  lemma AcksRecorded(s: Node, a: Action)
    requires TakesAck(s, a)
    ensures var s', p, peer := Fire(s, a).node, a.packet.payload, a.packet.src;
      && s'.peerBatteries == s.peerBatteries[peer := p.battery]
      && (s.role != Leader ==> s' == s.(peerBatteries := s'.peerBatteries))
      && (s.role == Leader && !p.success ==>
            && s' == s.(peerBatteries := s'.peerBatteries, nextIndex := s'.nextIndex)
            && s'.nextIndex == s.nextIndex[peer := if peer in s.nextIndex && s.nextIndex[peer] > 1
                                                   then (s.nextIndex[peer] as int) - 1 else 1])
  {
    hide CommitPoint;
  }
}
