/** Each handler, tick and battery check is a chain of moves, so every atomic
    step of the code keeps the invariant. */
module Refinement {
  import opened Types
  import opened Handlers
  import opened Clusters
  import opened Invariants
  import opened Moves
  import opened Preservation
  import opened Replication
  import Logs

  /** The cluster once node n has become s and sent ps. */
  function Mid(c: Cluster, n: NodeId, s: Node, sent: seq<Packet>, voted: set<(NodeId, nat)>): Cluster {
    Cluster(c.protocol, c.nodes[n := s], c.msgs + Elements(sent), voted)
  }

  lemma MidMid(c: Cluster, n: NodeId, s1: Node, sent1: seq<Packet>, s2: Node, sent2: seq<Packet>,
               voted: set<(NodeId, nat)>)
    ensures Mid(Mid(c, n, s1, sent1, voted), n, s2, sent2, voted) == Mid(c, n, s2, sent1 + sent2, voted)
  {
    assert c.nodes[n := s1][n := s2] == c.nodes[n := s2];
    assert Elements(sent1 + sent2) == Elements(sent1) + Elements(sent2);
  }

  /** Where every step starts: the invariant, with `voted` already grown. */
  ghost predicate At(c: Cluster, h: History, n: NodeId, s: Node, voted: set<(NodeId, nat)>, safe: bool) {
    Inv(c, h, safe) && n in c.nodes && c.nodes[n] == s && c.voted <= voted
  }

  lemma Chain(c: Cluster, h: History, n: NodeId, s1: Node, sent1: seq<Packet>, h1: History,
              s2: Node, sent2: seq<Packet>, h2: History, voted: set<(NodeId, nat)>, safe: bool)
    requires Kept(c, h, Mid(c, n, s1, sent1, voted), h1, safe)
    requires Kept(Mid(c, n, s1, sent1, voted), h1, Mid(Mid(c, n, s1, sent1, voted), n, s2, sent2, voted), h2, safe)
    ensures Kept(c, h, Mid(c, n, s2, sent1 + sent2, voted), h2, safe)
  {
    hide Inv, Grows;
    MidMid(c, n, s1, sent1, s2, sent2, voted);
    KeptTrans(c, h, Mid(c, n, s1, sent1, voted), h1, Mid(c, n, s2, sent1 + sent2, voted), h2, safe);
  }

  // ------------------------------------------------------------ quiet steps

  /** The code changed only fields that no safety property depends on. */
  predicate Untouched(s: Node, s': Node) {
    SameConfig(s, s') && SameBallot(s, s') && s'.log == s.log && s'.commit == s.commit && s'.matchIndex == s.matchIndex
  }

  lemma Idle(c: Cluster, h: History, n: NodeId, s: Node, s': Node, sent: seq<Packet>, voted: set<(NodeId, nat)>,
             safe: bool)
    requires At(c, h, n, s, voted, safe) && Untouched(s, s')
    requires forall m :: m in sent ==> Harmless(m)
    ensures Kept(c, h, Mid(c, n, s', sent, voted), h, safe)
  {
    hide Inv, Kept;
    QuietMove(c, h, Mid(c, n, s', sent, voted), n, s', Elements(sent), safe);
  }

  lemma StepDownMove(c: Cluster, h: History, n: NodeId, s: Node, t: nat, env: Env, voted: set<(NodeId, nat)>,
                     safe: bool)
    requires At(c, h, n, s, voted, safe) && t > s.term
    ensures Kept(c, h, Mid(c, n, StepDown(s, t, env), [], voted), h, safe)
  {
    hide Inv, Kept;
    var s' := StepDown(s, t, env);
    QuietMove(c, h, Mid(c, n, s', [], voted), n, s', {}, safe);
  }

  lemma RoleMove(c: Cluster, h: History, n: NodeId, s: Node, s': Node, sent: seq<Packet>,
                 voted: set<(NodeId, nat)>, safe: bool)
    requires At(c, h, n, s, voted, safe) && SameConfig(s, s')
    requires s'.term == s.term && s'.votedFor == s.votedFor && s'.log == s.log && s'.commit == s.commit
    requires s.role != Observer && s'.role != Candidate && s'.role != Leader
    requires s'.role == LocalLeader ==> Leads(s.role)
    requires forall m :: m in sent ==> Harmless(m)
    ensures Kept(c, h, Mid(c, n, s', sent, voted), h, safe)
  {
    hide Inv, Kept;
    QuietMove(c, h, Mid(c, n, s', sent, voted), n, s', Elements(sent), safe);
  }

  // ------------------------------------------------------------ replication

  lemma HeartbeatsReplicate(s: Node)
    ensures forall m :: m in Heartbeats(s) ==> Replicates(m, s)
  {
    forall peer ensures Replicates(AppendTo(s, peer), s) {
    }
  }

  lemma SpeakTo(c: Cluster, h: History, n: NodeId, s: Node, s': Node, sent: seq<Packet>, voted: set<(NodeId, nat)>,
                safe: bool)
    requires At(c, h, n, s, voted, safe) && Untouched(s, s') && Leads(s.role)
    requires forall m :: m in sent ==> Harmless(m) || Replicates(m, s)
    ensures Kept(c, h, Mid(c, n, s', sent, voted), h, safe)
  {
    hide Inv, Kept, Replicates, Harmless;
    SpeakMove(c, h, Mid(c, n, s', sent, voted), n, s', Elements(sent), safe);
  }

  lemma ReplicateMoves(c: Cluster, h: History, n: NodeId, s: Node, command: Command, trigger: Trigger,
                       voted: set<(NodeId, nat)>, safe: bool) returns (h': History)
    requires At(c, h, n, s, voted, safe) && Leads(s.role)
    ensures var o := Replicate(s, command, trigger); Kept(c, h, Mid(c, n, o.node, o.sent, voted), h', safe)
  {
    hide Inv, Kept, Replicates, Heartbeats;
    var o := Replicate(s, command, trigger);
    var e := NewEntry(s, command, trigger);
    var c1 := Mid(c, n, o.node, [], voted);
    h' := h.(termLog := h.termLog[s.term := o.node.log], acked := h.acked[(n, s.term) := |o.node.log|]);
    ExtendMove(c, h, c1, h', n, o.node, e, safe);
    HeartbeatsReplicate(o.node);
    KeptInv(c, h, c1, h', safe);
    SpeakTo(c1, h', n, o.node, o.node, o.sent, voted, safe);
    Chain(c, h, n, o.node, [], h', o.node, o.sent, h', voted, safe);
    assert [] + o.sent == o.sent;
  }

  lemma KeptInv(c: Cluster, h: History, c': Cluster, h': History, safe: bool)
    requires Kept(c, h, c', h', safe)
    ensures Inv(c', h', safe)
  {
  }

  lemma ReplicateAllMoves(c: Cluster, h: History, n: NodeId, s: Node, proposals: seq<(Command, Trigger)>,
                          voted: set<(NodeId, nat)>, safe: bool) returns (h': History)
    requires At(c, h, n, s, voted, safe) && Leads(s.role)
    ensures var o := ReplicateAll(s, proposals); Kept(c, h, Mid(c, n, o.node, o.sent, voted), h', safe)
    decreases |proposals|
  {
    hide Inv, Kept, Replicate;
    if proposals == [] {
      Idle(c, h, n, s, s, [], voted, safe);
      h' := h;
    } else {
      var first := Replicate(s, proposals[0].0, proposals[0].1);
      ReplicateKeepsRole(s, proposals[0].0, proposals[0].1);
      var h1 := ReplicateMoves(c, h, n, s, proposals[0].0, proposals[0].1, voted, safe);
      var c1 := Mid(c, n, first.node, first.sent, voted);
      KeptInv(c, h, c1, h1, safe);
      h' := ReplicateAllMoves(c1, h1, n, first.node, proposals[1..], voted, safe);
      var rest := ReplicateAll(first.node, proposals[1..]);
      Chain(c, h, n, first.node, first.sent, h1, rest.node, rest.sent, h', voted, safe);
    }
  }

  lemma ReplicateKeepsRole(s: Node, command: Command, trigger: Trigger)
    ensures Replicate(s, command, trigger).node.role == s.role
  {
  }

  /** A change of irrelevant fields, then a replication. */
  lemma TouchThenReplicate(c: Cluster, h: History, n: NodeId, s: Node, s1: Node, command: Command, trigger: Trigger,
                           voted: set<(NodeId, nat)>, safe: bool) returns (h': History)
    requires At(c, h, n, s, voted, safe) && Untouched(s, s1) && Leads(s.role)
    ensures var o := Replicate(s1, command, trigger); Kept(c, h, Mid(c, n, o.node, o.sent, voted), h', safe)
  {
    hide Inv, Kept, Replicate;
    Idle(c, h, n, s, s1, [], voted, safe);
    var c1 := Mid(c, n, s1, [], voted);
    KeptInv(c, h, c1, h, safe);
    h' := ReplicateMoves(c1, h, n, s1, command, trigger, voted, safe);
    var o := Replicate(s1, command, trigger);
    Chain(c, h, n, s1, [], h, o.node, o.sent, h', voted, safe);
    assert [] + o.sent == o.sent;
  }

  lemma TouchThenReplicateAll(c: Cluster, h: History, n: NodeId, s: Node, s1: Node, proposals: seq<(Command, Trigger)>,
                              voted: set<(NodeId, nat)>, safe: bool) returns (h': History)
    requires At(c, h, n, s, voted, safe) && Untouched(s, s1) && Leads(s.role)
    ensures var o := ReplicateAll(s1, proposals); Kept(c, h, Mid(c, n, o.node, o.sent, voted), h', safe)
  {
    hide Inv, Kept, ReplicateAll;
    Idle(c, h, n, s, s1, [], voted, safe);
    var c1 := Mid(c, n, s1, [], voted);
    KeptInv(c, h, c1, h, safe);
    h' := ReplicateAllMoves(c1, h, n, s1, proposals, voted, safe);
    var o := ReplicateAll(s1, proposals);
    Chain(c, h, n, s1, [], h, o.node, o.sent, h', voted, safe);
    assert [] + o.sent == o.sent;
  }

  lemma FlushPendingMoves(c: Cluster, h: History, n: NodeId, s: Node, env: Env,
                          voted: set<(NodeId, nat)>, safe: bool) returns (h': History)
    requires At(c, h, n, s, voted, safe) && Leads(s.role)
    ensures var o := FlushPending(s, env); Kept(c, h, Mid(c, n, o.node, o.sent, voted), h', safe)
  {
    hide Inv, Kept, Replicate, ReplicateAll;
    var s1 := s.(pending := [], lastActivity := Later(env));
    if s.pending == [] {
      Idle(c, h, n, s, s, [], voted, safe);
      h' := h;
    } else if s.protocol == EchoD && |s.pending| > 1 {
      h' := TouchThenReplicate(c, h, n, s, s1, Batch(Commands(s.pending), |s.pending|), s.pending[0].1, voted, safe);
    } else {
      h' := TouchThenReplicateAll(c, h, n, s, s1, s.pending, voted, safe);
    }
  }

  lemma FlushBatchMoves(c: Cluster, h: History, n: NodeId, s: Node, env: Env,
                        voted: set<(NodeId, nat)>, safe: bool) returns (h': History)
    requires At(c, h, n, s, voted, safe) && Leads(s.role)
    ensures var o := FlushBatch(s, env); Kept(c, h, Mid(c, n, o.node, o.sent, voted), h', safe)
  {
    hide Inv, Kept, Replicate;
    if s.batch == [] {
      Idle(c, h, n, s, s.(batchDeadline := None), [], voted, safe);
      h' := h;
    } else {
      h' := TouchThenReplicate(c, h, n, s, s.(batch := [], batchDeadline := None, lastActivity := env.now),
        if |s.batch| == 1 then s.batch[0] else Batch(s.batch, |s.batch|), Delta, voted, safe);
    }
  }

  // --------------------------------------------------------------- election

  lemma CampaignMoves(c: Cluster, h: History, n: NodeId, s: Node, env: Env,
                      voted: set<(NodeId, nat)>, safe: bool) returns (h': History)
    requires At(c, h, n, s, voted, safe) && s.id == n && Ballot(n, StartElection(s, env).node) <= voted
    ensures var o := StartElection(s, env); Kept(c, h, Mid(c, n, o.node, o.sent, voted), h', safe)
  {
    hide Inv, Kept;
    if s.role == Observer {
      Idle(c, h, n, s, s, [], voted, safe);
      h' := h;
    } else {
      var o := StartElection(s, env);
      assert o.node.votes.Keys == {n};
      VoteRequestsShape(s, env);
      assert (n, o.node.term) in Ballot(n, o.node);
      h' := h.(cast := h.cast[(n, o.node.term) := n], stood := h.stood[(n, o.node.term) := s.log]);
      CampaignMove(c, h, Mid(c, n, o.node, o.sent, voted), h', n, o.node, Elements(o.sent), safe);
    }
  }

  lemma PingsHarmless(s: Node)
    ensures forall m :: m in SendPing(s).sent ==> Harmless(m)
  {
    var sent := SendPing(s).sent;
    forall m | m in sent ensures Harmless(m) {
      var i :| 0 <= i < |sent| && sent[i] == m;
      assert m.payload == Ping(s);
    }
  }

  lemma VoteRequestsShape(s: Node, env: Env)
    requires s.role != Observer
    ensures var o := StartElection(s, env); forall m :: m in o.sent ==>
      m.src == s.id && m.payload == VoteRequest(o.node, env)
  {
    var sent := StartElection(s, env).sent;
    forall m | m in sent ensures m.src == s.id && m.payload == VoteRequest(StartElection(s, env).node, env) {
      var i :| 0 <= i < |sent| && sent[i] == m;
    }
  }

  lemma AssertMoves(c: Cluster, h: History, n: NodeId, s: Node, voted: set<(NodeId, nat)>, safe: bool)
    requires At(c, h, n, s, voted, safe) && Leads(s.role)
    ensures var o := AssertLeadership(s); Kept(c, h, Mid(c, n, o.node, o.sent, voted), h, safe) && Untouched(s, o.node)
  {
    hide Inv, Kept, Replicates;
    var o := AssertLeadership(s);
    HeartbeatsReplicate(s);
    PingsHarmless(s);
    SpeakTo(c, h, n, s, o.node, o.sent, voted, safe);
  }

  lemma OfficeMove(c: Cluster, h: History, n: NodeId, s: Node, env: Env,
                   voted: set<(NodeId, nat)>, safe: bool) returns (h': History)
    requires At(c, h, n, s, voted, safe) && s.role == Candidate && Majority(|s.votes|, s)
    ensures Kept(c, h, Mid(c, n, AssumeOffice(s, env), [], voted), h', safe)
  {
    hide Inv, Kept;
    var s' := AssumeOffice(s, env);
    h' := h.(elected := h.elected[s.term := Win(n, s.votes.Keys)],
             termLog := h.termLog[s.term := s.log], acked := h.acked[(n, s.term) := |s.log|]);
    PeersOf(c, h, n, safe);
    SetAllAt(s.matchIndex, s.peers, 0);
    ElectMove(c, h, Mid(c, n, s', [], voted), h', n, s', safe);
  }

  lemma PeersOf(c: Cluster, h: History, n: NodeId, safe: bool)
    requires Inv(c, h, safe) && n in c.nodes
    ensures ConfiguredNode(c, n)
    ensures forall p :: p in c.nodes[n].peers <==> p in c.nodes && p != n
  {
    hide LogInv, CommitInv;
    Logs.NodeConfig(c, h, n);
    assert Elements(c.nodes[n].peers) == c.nodes.Keys - {n};
    forall p ensures p in c.nodes[n].peers <==> p in c.nodes && p != n {
      assert p in c.nodes[n].peers <==> p in Elements(c.nodes[n].peers);
      assert p in c.nodes.Keys - {n} <==> p in c.nodes && p != n;
    }
  }

  lemma BecomeLeaderMoves(c: Cluster, h: History, n: NodeId, s: Node, env: Env,
                          voted: set<(NodeId, nat)>, safe: bool) returns (h': History)
    requires At(c, h, n, s, voted, safe) && s.role == Candidate && Majority(|s.votes|, s)
    ensures var o := BecomeLeader(s, env); Kept(c, h, Mid(c, n, o.node, o.sent, voted), h', safe)
  {
    hide Inv, Kept, FlushPending, AssertLeadership;
    var s1 := AssumeOffice(s, env);
    var h1 := OfficeMove(c, h, n, s, env, voted, safe);
    var c1 := Mid(c, n, s1, [], voted);
    KeptInv(c, h, c1, h1, safe);
    AssertMoves(c1, h1, n, s1, voted, safe);
    var asserted := AssertLeadership(s1);
    Chain(c, h, n, s1, [], h1, asserted.node, asserted.sent, h1, voted, safe);
    assert [] + asserted.sent == asserted.sent;
    var c2 := Mid(c, n, asserted.node, asserted.sent, voted);
    KeptInv(c, h, c2, h1, safe);
    h' := FlushPendingMoves(c2, h1, n, asserted.node, env, voted, safe);
    var flushed := FlushPending(asserted.node, env);
    Chain(c, h, n, asserted.node, asserted.sent, h1, flushed.node, flushed.sent, h', voted, safe);
  }

  lemma RequestVoteMoves(c: Cluster, h: History, n: NodeId, s: Node, m: Packet, env: Env,
                         voted: set<(NodeId, nat)>, safe: bool) returns (h': History)
    requires At(c, h, n, s, voted, safe) && s.id == n && m in c.msgs && m.payload.RequestVote?
    requires Ballot(n, HandleRequestVote(s, m.src, m.payload, env).node) <= voted
    ensures var o := HandleRequestVote(s, m.src, m.payload, env); Kept(c, h, Mid(c, n, o.node, o.sent, voted), h', safe)
  {
    hide Inv, Kept, StepDown, UpToDate;
    var p := m.payload;
    var o := HandleRequestVote(s, m.src, p, env);
    var s1 := if p.term > s.term then StepDown(s, p.term, env) else s;
    var c1 := Mid(c, n, s1, [], voted);
    StepDownShape(s, p.term, env);
    if p.term > s.term {
      StepDownMove(c, h, n, s, p.term, env, voted, safe);
    } else {
      Idle(c, h, n, s, s1, [], voted, safe);
    }
    KeptInv(c, h, c1, h, safe);
    if GrantsVote(s1, p) {
      assert (n, s1.term) in Ballot(n, o.node);
      h' := h.(cast := h.cast[(n, s1.term) := p.candidate]);
      GrantMove(c1, h, Mid(c1, n, o.node, o.sent, voted), h', n, o.node, Elements(o.sent), m, safe);
    } else {
      h' := h;
      Idle(c1, h, n, s1, o.node, o.sent, voted, safe);
    }
    Chain(c, h, n, s1, [], h, o.node, o.sent, h', voted, safe);
    assert [] + o.sent == o.sent;
  }

  lemma StepDownShape(s: Node, t: nat, env: Env)
    ensures var s' := StepDown(s, t, env);
      SameConfig(s, s') && s'.term == t && s'.log == s.log && s'.commit == s.commit && s'.votedFor == None
      && (s'.role == Follower || s'.role == Observer) && (s'.role == Observer <==> s.role == Observer)
  {
  }

  lemma VoteResponseMoves(c: Cluster, h: History, n: NodeId, s: Node, m: Packet, env: Env,
                          voted: set<(NodeId, nat)>, safe: bool) returns (h': History)
    requires At(c, h, n, s, voted, safe) && m in c.msgs && m.payload.VoteResponse? && Addressed(m, n)
    ensures var o := HandleVoteResponse(s, m.src, m.payload, env);
      Kept(c, h, Mid(c, n, o.node, o.sent, voted), h', safe)
  {
    hide Inv, Kept, StepDown, BecomeLeader;
    var p := m.payload;
    h' := h;
    if p.term > s.term {
      StepDownMove(c, h, n, s, p.term, env, voted, safe);
    } else if s.role != Candidate || p.term != s.term {
      Idle(c, h, n, s, s, [], voted, safe);
    } else {
      var s1 := if p.granted then s.(votes := s.votes[m.src := p.battery]) else s;
      CountMove(c, h, n, s, m, voted, safe);
      if Majority(|s1.votes|, s1) {
        h' := WinMoves(c, h, n, s, s1, env, voted, safe);
      }
    }
  }

  /** A candidate counts the vote, if it was granted. */
  lemma CountMove(c: Cluster, h: History, n: NodeId, s: Node, m: Packet, voted: set<(NodeId, nat)>, safe: bool)
    requires At(c, h, n, s, voted, safe) && m in c.msgs && m.payload.VoteResponse? && Addressed(m, n)
    requires s.role == Candidate && m.payload.term == s.term
    ensures var s1 := if m.payload.granted then s.(votes := s.votes[m.src := m.payload.battery]) else s;
      Kept(c, h, Mid(c, n, s1, [], voted), h, safe)
  {
    hide Inv, Kept;
    var p := m.payload;
    if p.granted {
      var s1 := s.(votes := s.votes[m.src := p.battery]);
      GrantedFor(c, h, m, n, safe);
      assert s1.votes.Keys == s.votes.Keys + {m.src};
      CollectMove(c, h, Mid(c, n, s1, [], voted), n, s1, m.src, safe);
    } else {
      Idle(c, h, n, s, s, [], voted, safe);
    }
  }

  lemma WinMoves(c: Cluster, h: History, n: NodeId, s: Node, s1: Node, env: Env,
                 voted: set<(NodeId, nat)>, safe: bool) returns (h': History)
    requires At(c, h, n, s, voted, safe) && Kept(c, h, Mid(c, n, s1, [], voted), h, safe)
    requires s1.role == Candidate && Majority(|s1.votes|, s1)
    ensures var o := BecomeLeader(s1, env); Kept(c, h, Mid(c, n, o.node, o.sent, voted), h', safe)
  {
    hide Inv, Kept, BecomeLeader;
    var c1 := Mid(c, n, s1, [], voted);
    KeptInv(c, h, c1, h, safe);
    h' := BecomeLeaderMoves(c1, h, n, s1, env, voted, safe);
    var o := BecomeLeader(s1, env);
    Chain(c, h, n, s1, [], h, o.node, o.sent, h', voted, safe);
    assert [] + o.sent == o.sent;
  }

  lemma GrantedFor(c: Cluster, h: History, m: Packet, n: NodeId, safe: bool)
    requires Inv(c, h, safe) && m in c.msgs && m.payload.VoteResponse? && m.payload.granted && Addressed(m, n)
    ensures VotedFor(h, m.src, m.payload.term, n)
  {
    assert VotePacket(h, m);
  }

  // ----------------------------------------------------------- AppendEntries

  /** A packet that carries nothing is rejected: no entry has term 0. */
  lemma OvershootRejected(h: History, log: Log, t: nat, p: Payload)
    requires p.AppendEntries? && Overshoot(p) && Sound(h, log, t)
    ensures !PrevMatches(log, p.prevIndex, p.prevTerm)
  {
  }

  lemma SoundAgree(h: History, a: Log, b: Log, t: nat, u: nat)
    requires Sound(h, a, t) && Sound(h, b, u)
    ensures Agree(a, b) && Indexed(b)
  {
    forall i | 0 <= i < |a| && i < |b| && a[i].term == b[i].term ensures a[..i + 1] == b[..i + 1] {
      Logs.Matching(h, a, b, t, u, i);
    }
    forall i | 0 <= i < |b| ensures b[i].index == i + 1 {
      assert SoundAt(h, b, i);
    }
  }

  /** If the consistency check passes, the log is left as it was or becomes the
      log the leader had when it sent the packet. */
  lemma StoredLog(h: History, s: Node, p: Payload, whole: Log, t: nat)
    requires p.AppendEntries? && Sound(h, s.log, t) && Sound(h, whole, t)
    requires p.prevIndex <= |whole| && Carries(p, whole)
    requires PrevMatches(s.log, p.prevIndex, p.prevTerm)
    ensures StoreAll(s, p.entries).node == s.(log := Merge(s.log, whole))
    ensures forall m :: m in StoreAll(s, p.entries).sent ==> m.payload.ReconcileBatch?
  {
    SoundAgree(h, s.log, whole, t, t);
    if p.prevIndex > 0 {
      assert s.log[p.prevIndex - 1].term == whole[p.prevIndex - 1].term;
      assert s.log[..p.prevIndex] == whole[..p.prevIndex];
    }
    StoreAllMerges(s, whole, p.prevIndex);
  }

  lemma AppendParts(c: Cluster, h: History, m: Packet, safe: bool)
    requires Inv(c, h, safe) && m in c.msgs && m.payload.AppendEntries?
    ensures AppendPacket(h, m) && m.payload.term in h.termLog && Sound(h, h.termLog[m.payload.term], m.payload.term)
  {
    hide ElectionInv, CommitInv, Sound;
    assert LogPacket(h, m);
  }

  lemma NodeLogSound(c: Cluster, h: History, n: NodeId, safe: bool)
    requires Inv(c, h, safe) && n in c.nodes
    ensures Sound(h, c.nodes[n].log, c.nodes[n].term)
  {
    hide ElectionInv, CommitInv, Sound;
    assert LogOf(c, h, n);
  }

  /** No packet of its own term reaches a leader. */
  lemma LeaderHearsNobody(c: Cluster, h: History, n: NodeId, m: Packet, safe: bool)
    requires Inv(c, h, safe) && n in c.nodes && m in c.msgs && m.payload.AppendEntries? && m.src != n
    requires m.payload.term == c.nodes[n].term
    ensures !Leads(c.nodes[n].role)
  {
    hide CommitInv, LogInv;
    AppendParts(c, h, m, safe);
    assert VotesOf(c, h, n);
  }

  /** What accepting packet m does, where w is the leader's log it carries. */
  ghost predicate Accepts(s: Node, m: Packet, w: Log, o: Out)
    requires m.payload.AppendEntries?
  {
    && o.node.log == Merge(s.log, w)
    && o.node.commit == Learn(s.(log := o.node.log), m.payload.leaderCommit).commit
    && SameConfig(s, o.node) && o.node.term == s.term && o.node.votedFor == s.votedFor && o.node.votes == s.votes
    && o.node.role == (if s.role == Candidate then Follower else s.role)
    && (forall r :: r in o.sent ==> Harmless(r) || (r.src == s.id && r.payload.AppendResponse?
                                                  && r.payload.term == s.term && r.payload.covered == |w|))
  }

  lemma AcceptedLog(h: History, s: Node, m: Packet, env: Env, w: Log, o: Out)
    requires m.payload.AppendEntries? && m.payload.term == s.term && o == AcceptOrReject(s, m.src, m.payload, env)
    requires PrevMatches(s.log, m.payload.prevIndex, m.payload.prevTerm)
    requires Sound(h, s.log, s.term) && Sound(h, w, s.term)
    requires Covered(m.payload) == |w| && Carries(m.payload, w)
    ensures Accepts(s, m, w, o)
  {
    hide StoreAll, Sound, Merge, NewElectionDeadline;
    var p := m.payload;
    var s1 := ResetElectionTimer(s, env).(leader := Some(p.leader),
      role := if s.role == Candidate then Follower else s.role);
    StoredLog(h, s1, p, w, s.term);
  }

  lemma AcceptMoves(c: Cluster, h: History, n: NodeId, s: Node, m: Packet, env: Env,
                    voted: set<(NodeId, nat)>, safe: bool) returns (h': History)
    requires At(c, h, n, s, voted, safe) && s.id == n && m in c.msgs && m.payload.AppendEntries?
    requires m.payload.term == s.term && s.role in {Follower, Observer}
    ensures var o := AcceptOrReject(s, m.src, m.payload, env); Kept(c, h, Mid(c, n, o.node, o.sent, voted), h', safe)
  {
    hide Inv, Kept, StoreAll, Sound, Merge, NewElectionDeadline;
    var p := m.payload;
    var o := AcceptOrReject(s, m.src, p, env);
    if !PrevMatches(s.log, p.prevIndex, p.prevTerm) {
      h' := h;
      Idle(c, h, n, s, o.node, o.sent, voted, safe);
    } else {
      AppendParts(c, h, m, safe);
      NodeLogSound(c, h, n, safe);
      if Overshoot(p) { OvershootRejected(h, s.log, s.term, p); }
      h' := AcceptPrefix(c, h, n, s, m, env, o, voted, safe);
    }
  }

  lemma AcceptPrefix(c: Cluster, h: History, n: NodeId, s: Node, m: Packet, env: Env, o: Out,
                     voted: set<(NodeId, nat)>, safe: bool) returns (h': History)
    requires At(c, h, n, s, voted, safe) && s.id == n && m in c.msgs && m.payload.AppendEntries?
    requires m.payload.term == s.term && s.role in {Follower, Observer}
    requires o == AcceptOrReject(s, m.src, m.payload, env)
    requires PrevMatches(s.log, m.payload.prevIndex, m.payload.prevTerm)
    requires Sound(h, s.log, s.term) && AppendPacket(h, m) && !Overshoot(m.payload)
    requires s.term in h.termLog && Sound(h, h.termLog[s.term], s.term)
    ensures Kept(c, h, Mid(c, n, o.node, o.sent, voted), h', safe)
  {
    hide Inv, Kept, AcceptOrReject, Sound, Merge, Learn, PrevMatches;
    var w := h.termLog[s.term][..Covered(m.payload)];
    Logs.SoundPrefix(h, h.termLog[s.term], s.term, |w|);
    AcceptedLog(h, s, m, env, w, o);
    h' := h.(acked := h.acked[(n, s.term) := if Acked(h, n, s.term) >= |w| then Acked(h, n, s.term) else |w|]);
    AcceptMove(c, h, Mid(c, n, o.node, o.sent, voted), h', n, o.node, Elements(o.sent), m, safe);
  }

  lemma AppendMoves(c: Cluster, h: History, n: NodeId, s: Node, m: Packet, env: Env,
                    voted: set<(NodeId, nat)>, safe: bool) returns (h': History)
    requires At(c, h, n, s, voted, safe) && s.id == n && m in c.msgs && m.payload.AppendEntries? && Addressed(m, n)
    ensures var o := HandleAppendEntries(s, m.src, m.payload, env);
      Kept(c, h, Mid(c, n, o.node, o.sent, voted), h', safe)
  {
    hide Inv, Kept, StepDown, AcceptOrReject, LogPacket;
    var p := m.payload;
    var o := HandleAppendEntries(s, m.src, p, env);
    if p.term < s.term {
      h' := h;
      Idle(c, h, n, s, s, o.sent, voted, safe);
    } else {
      var s1 := if p.term > s.term then StepDown(s, p.term, env) else s;
      StepDownShape(s, p.term, env);
      // The handler makes a candidate a follower; so does this move, just before.
      var s2 := if s1.role == Candidate then s1.(role := Follower) else s1;
      var c2 := Mid(c, n, s2, [], voted);
      if p.term > s.term {
        StepDownMove(c, h, n, s, p.term, env, voted, safe);
      } else {
        LeaderHearsNobody(c, h, n, m, safe);
        if s.role == Candidate {
          RoleMove(c, h, n, s, s2, [], voted, safe);
        } else {
          Idle(c, h, n, s, s2, [], voted, safe);
        }
      }
      KeptInv(c, h, c2, h, safe);
      h' := AcceptMoves(c2, h, n, s2, m, env, voted, safe);
      SameAcceptance(s1, m, env);
      Chain(c, h, n, s2, [], h, o.node, o.sent, h', voted, safe);
      assert [] + o.sent == o.sent;
    }
  }

  lemma SameAcceptance(s: Node, m: Packet, env: Env)
    requires m.payload.AppendEntries?
    ensures var s' := if s.role == Candidate then s.(role := Follower) else s;
      AcceptOrReject(s', m.src, m.payload, env) == AcceptOrReject(s, m.src, m.payload, env)
  {
    hide StoreAll, Learn;
  }

  // ----------------------------------------------------------- ack and commit

  lemma AckedQuorum(c: Cluster, n: NodeId, s: Node, k: nat) returns (q: set<NodeId>)
    requires Configured(c) && n in c.nodes && SameConfig(c.nodes[n], s) && k >= 1
    requires Majority(1 + CountMatches(s.peers, s.matchIndex, k), s)
    ensures Quorum(c, q) && n in q
    ensures forall p :: p in q && p != n ==> p in s.matchIndex && s.matchIndex[p] >= k
  {
    hide CountMatches;
    assert ConfiguredNode(c, n);
    MatchedPeers(s, c.nodes.Keys - {n}, k);
    q := Matched(s.peers, s.matchIndex, k) + {n};
  }

  /** As many nodes have matched k as the scan counts. */
  lemma MatchedPeers(s: Node, others: set<NodeId>, k: nat)
    requires Elements(s.peers) == others && |s.peers| == |others|
    ensures Matched(s.peers, s.matchIndex, k) <= others
    ensures |Matched(s.peers, s.matchIndex, k)| == CountMatches(s.peers, s.matchIndex, k)
  {
    NoRepeats(s.peers);
    CountIsSize(s.peers, s.matchIndex, k);
    forall p | p in Matched(s.peers, s.matchIndex, k) ensures p in others {
      assert p in Elements(s.peers);
    }
  }

  lemma AdvanceMoves(c: Cluster, h: History, n: NodeId, s: Node,
                     voted: set<(NodeId, nat)>, safe: bool) returns (h': History)
    requires At(c, h, n, s, voted, safe) && s.role == Leader
    ensures Kept(c, h, Mid(c, n, AdvanceCommit(s), [], voted), h', safe)
  {
    hide Inv, Kept, CommitPoint;
    var s' := AdvanceCommit(s);
    CommitPointChoice(s, |s.log|);
    if s'.commit == s.commit {
      h' := h;
      Idle(c, h, n, s, s', [], voted, safe);
    } else {
      h' := CommitTo(c, h, n, s, s'.commit, voted, safe);
    }
  }

  lemma CommitTo(c: Cluster, h: History, n: NodeId, s: Node, k: nat,
                 voted: set<(NodeId, nat)>, safe: bool) returns (h': History)
    requires At(c, h, n, s, voted, safe) && s.role == Leader && 1 <= k <= |s.log| && Committable(s, k)
    ensures Kept(c, h, Mid(c, n, s.(commit := k), [], voted), h', safe)
  {
    hide Inv, Kept, CountMatches;
    var s' := s.(commit := k);
    IsConfigured(c, h, safe);
    var q := AckedQuorum(c, n, s, k);
    h' := h.(committed := h.committed[(s.term, k) := q]);
    CommitMove(c, h, Mid(c, n, s', [], voted), h', n, s', k, q, safe);
  }

  lemma CommitPointChoice(s: Node, n: nat)
    requires n <= |s.log|
    ensures var k := CommitPoint(s, n); k == s.commit || (s.commit < k <= n && Committable(s, k))
  {
    if n >= s.commit { CommitPointIsGreatest(s, n); }
  }

  lemma IsConfigured(c: Cluster, h: History, safe: bool)
    requires Inv(c, h, safe)
    ensures Configured(c)
  {
  }

  /** The ack's sender has held in this term what the ack says was covered. */
  lemma AckParts(c: Cluster, h: History, m: Packet)
    requires Inv(c, h, true) && m in c.msgs && m.payload.AppendResponse? && m.payload.success
    ensures m.payload.covered <= Acked(h, m.src, m.payload.term)
  {
    hide ElectionInv, LogInv;
    assert CommitPacket(h, m);
  }

  lemma AckMoves(c: Cluster, h: History, n: NodeId, s: Node, m: Packet, env: Env,
                 voted: set<(NodeId, nat)>, safe: bool) returns (h': History)
    requires At(c, h, n, s, voted, safe) && m in c.msgs && m.payload.AppendResponse?
    requires safe && m.payload.success && s.role == Leader && m.payload.term <= s.term ==>
               m.payload.term == s.term && m.payload.matchIndex <= m.payload.covered
    ensures Kept(c, h, Mid(c, n, HandleAppendResponse(s, m.src, m.payload, env), [], voted), h', safe)
  {
    hide Inv, Kept, StepDown, AdvanceCommit;
    var p := m.payload;
    var s' := HandleAppendResponse(s, m.src, p, env);
    if p.term > s.term {
      h' := h;
      StepDownMove(c, h, n, s, p.term, env, voted, safe);
    } else if s.role != Leader || !p.success {
      h' := h;
      Idle(c, h, n, s, s', [], voted, safe);
    } else {
      var s1 := s.(peerBatteries := s.peerBatteries[m.src := p.battery],
                   nextIndex := s.nextIndex[m.src := (p.matchIndex + 1) as pos],
                   matchIndex := s.matchIndex[m.src := p.matchIndex]);
      var c1 := Mid(c, n, s1, [], voted);
      if safe { AckParts(c, h, m); }
      MatchMove(c, h, c1, n, s1, m.src, p.matchIndex, safe);
      KeptInv(c, h, c1, h, safe);
      h' := AdvanceMoves(c1, h, n, s1, voted, safe);
      Chain(c, h, n, s1, [], h, s', [], h', voted, safe);
      assert Mid(c, n, s', [] + [], voted) == Mid(c, n, s', [], voted);
    }
  }

  // --------------------------------------------------------- other handlers

  lemma PingMoves(c: Cluster, h: History, n: NodeId, s: Node, p: Payload, env: Env,
                  voted: set<(NodeId, nat)>, safe: bool)
    requires At(c, h, n, s, voted, safe) && p.LivenessPing?
    ensures Kept(c, h, Mid(c, n, HandlePing(s, p, env), [], voted), h, safe)
  {
    hide Inv, Kept, StepDown, NewElectionDeadline;
    var s' := HandlePing(s, p, env);
    if p.term > s.term {
      StepDownShape(s, p.term, env);
      QuietMove(c, h, Mid(c, n, s', [], voted), n, s', {}, safe);
    } else {
      Idle(c, h, n, s, s', [], voted, safe);
    }
  }

  lemma SensorMoves(c: Cluster, h: History, n: NodeId, s: Node, p: Payload, env: Env,
                    voted: set<(NodeId, nat)>, safe: bool) returns (h': History)
    requires At(c, h, n, s, voted, safe) && p.SensorData?
    ensures var o := HandleSensor(s, p, env); Kept(c, h, Mid(c, n, o.node, o.sent, voted), h', safe)
  {
    hide Inv, Kept, Replicate, Enqueue, Filtered, SensorKey;
    var o := HandleSensor(s, p, env);
    h' := h;
    if !Leads(s.role) || (s.protocol != Raft && Filtered(s, p)) {
      Idle(c, h, n, s, o.node, o.sent, voted, safe);
    } else if s.protocol == Raft {
      h' := ReplicateMoves(c, h, n, s, ReadingOf(p), Event, voted, safe);
    } else {
      var s1 := s.(lastSensor := s.lastSensor[SensorKey(p) := p.value]);
      if s.protocol == EchoD {
        h' := EnqueueMoves(c, h, n, s, s1, ReadingOf(p), env, voted, safe);
      } else {
        h' := TouchThenReplicate(c, h, n, s, s1, ReadingOf(p), Delta, voted, safe);
      }
    }
  }

  lemma EnqueueMoves(c: Cluster, h: History, n: NodeId, s: Node, s1: Node, command: Command, env: Env,
                     voted: set<(NodeId, nat)>, safe: bool) returns (h': History)
    requires At(c, h, n, s, voted, safe) && Untouched(s, s1) && Leads(s.role)
    ensures var o := Enqueue(s1, command, env); Kept(c, h, Mid(c, n, o.node, o.sent, voted), h', safe)
  {
    hide Inv, Kept, FlushBatch;
    var s2 := s1.(batch := s1.batch + [command],
                  batchDeadline := if s1.batchDeadline == None then Some(env.now + BATCH_WINDOW) else s1.batchDeadline);
    Idle(c, h, n, s, s2, [], voted, safe);
    h' := h;
    if |s2.batch| >= MAX_BATCH_SIZE {
      var c1 := Mid(c, n, s2, [], voted);
      KeptInv(c, h, c1, h, safe);
      h' := FlushBatchMoves(c1, h, n, s2, env, voted, safe);
      var o := FlushBatch(s2, env);
      Chain(c, h, n, s2, [], h, o.node, o.sent, h', voted, safe);
      assert [] + o.sent == o.sent;
    }
  }

  lemma ReconcileMoves(c: Cluster, h: History, n: NodeId, s: Node, p: Payload, env: Env,
                       voted: set<(NodeId, nat)>, safe: bool) returns (h': History)
    requires At(c, h, n, s, voted, safe) && p.ReconcileBatch?
    ensures var o := HandleReconcile(s, p, env); Kept(c, h, Mid(c, n, o.node, o.sent, voted), h', safe)
  {
    hide Inv, Kept, Replicate, ReplicateAll, Screen, Tagged;
    var o := HandleReconcile(s, p, env);
    var (window, unseen) := Screen(s.recent, p.commands);
    h' := h;
    if !Leads(s.role) || p.commands == [] || unseen == [] {
      Idle(c, h, n, s, o.node, o.sent, voted, safe);
    } else {
      var s2 := s.(recent := Trim(window), lastActivity := env.now);
      if s.protocol == EchoD && |unseen| > 1 {
        h' := TouchThenReplicate(c, h, n, s, s2, Batch(unseen, |unseen|), Reconcile, voted, safe);
      } else {
        h' := TouchThenReplicateAll(c, h, n, s, s2, Tagged(unseen, Reconcile), voted, safe);
      }
    }
  }

  lemma HandoffMoves(c: Cluster, h: History, n: NodeId, s: Node, p: Payload, env: Env,
                     voted: set<(NodeId, nat)>, safe: bool) returns (h': History)
    requires At(c, h, n, s, voted, safe) && s.id == n && p.LeadershipHandoff?
    requires Ballot(n, HandleHandoff(s, p, env).node) <= voted
    ensures var o := HandleHandoff(s, p, env); Kept(c, h, Mid(c, n, o.node, o.sent, voted), h', safe)
  {
    hide Inv, Kept, StepDown, StartElection;
    var o := HandleHandoff(s, p, env);
    h' := h;
    if s.protocol != EchoD || s.role == Observer || p.term < s.term {
      Idle(c, h, n, s, s, [], voted, safe);
    } else {
      var s1 := if p.term > s.term then StepDown(s, p.term, env) else s;
      var c1 := Mid(c, n, s1, [], voted);
      StepDownShape(s, p.term, env);
      if p.term > s.term {
        StepDownMove(c, h, n, s, p.term, env, voted, safe);
      } else {
        Idle(c, h, n, s, s1, [], voted, safe);
      }
      KeptInv(c, h, c1, h, safe);
      h' := CampaignMoves(c1, h, n, s1, env, voted, safe);
      Chain(c, h, n, s1, [], h, o.node, o.sent, h', voted, safe);
      assert [] + o.sent == o.sent;
    }
  }

  lemma BatteryMoves(c: Cluster, h: History, n: NodeId, s: Node, env: Env, voted: set<(NodeId, nat)>, safe: bool)
    requires At(c, h, n, s, voted, safe)
    requires s.role == Observer && CheckBattery(s, env).role == Follower ==> (n, s.term) !in c.voted
    ensures Kept(c, h, Mid(c, n, CheckBattery(s, env), [], voted), h, safe)
  {
    hide Inv, Kept;
    var s' := CheckBattery(s, env);
    CastIsVoted(c, h, n, s.term, safe);
    QuietMove(c, h, Mid(c, n, s', [], voted), n, s', {}, safe);
  }

  lemma CastIsVoted(c: Cluster, h: History, v: NodeId, t: nat, safe: bool)
    requires Inv(c, h, safe)
    ensures (v, t) in h.cast ==> (v, t) in c.voted
  {
    hide LogInv, CommitInv;
    assert (v, t) in h.cast ==> CastOk(c, h, v, t);
  }

  lemma PartitionMoves(c: Cluster, h: History, n: NodeId, s: Node, heal: bool, voted: set<(NodeId, nat)>, safe: bool)
    requires At(c, h, n, s, voted, safe)
    ensures Kept(c, h, Mid(c, n, Handlers.HandlePartitionControl(s, heal), [], voted), h, safe)
  {
    hide Inv, Kept;
    var s' := Handlers.HandlePartitionControl(s, heal);
    QuietMove(c, h, Mid(c, n, s', [], voted), n, s', {}, safe);
  }

  // ------------------------------------------------------------------- tick

  lemma PingIfDueMoves(c: Cluster, h: History, n: NodeId, s: Node, interval: real, env: Env,
                       voted: set<(NodeId, nat)>, safe: bool)
    requires At(c, h, n, s, voted, safe) && Leads(s.role)
    ensures var o := PingIfDue(s, interval, env);
      Kept(c, h, Mid(c, n, o.node, o.sent, voted), h, safe) && Untouched(s, o.node)
  {
    hide Inv, Kept, Replicates, Harmless;
    var o := PingIfDue(s, interval, env);
    HeartbeatsReplicate(s);
    PingsHarmless(s);
    SpeakTo(c, h, n, s, o.node, o.sent, voted, safe);
  }

  lemma HandoffIfLowMoves(c: Cluster, h: History, n: NodeId, s: Node, env: Env, voted: set<(NodeId, nat)>, safe: bool)
    requires At(c, h, n, s, voted, safe) && Leads(s.role)
    ensures var o := HandoffIfLow(s, env); Kept(c, h, Mid(c, n, o.node, o.sent, voted), h, safe)
  {
    hide Inv, Kept, Successor, NewElectionDeadline;
    var o := HandoffIfLow(s, env);
    if o.node.role == s.role {
      Idle(c, h, n, s, o.node, o.sent, voted, safe);
    } else {
      RoleMove(c, h, n, s, o.node, o.sent, voted, safe);
    }
  }

  lemma FlushIfDueMoves(c: Cluster, h: History, n: NodeId, s: Node, env: Env,
                        voted: set<(NodeId, nat)>, safe: bool) returns (h': History)
    requires At(c, h, n, s, voted, safe) && Leads(s.role)
    ensures var o := FlushIfDue(s, env); Kept(c, h, Mid(c, n, o.node, o.sent, voted), h', safe) && o.node.role == s.role
  {
    hide Inv, Kept, Heartbeats;
    if s.batchDeadline != None && env.now >= s.batchDeadline.value {
      h' := FlushBatchMoves(c, h, n, s, env, voted, safe);
    } else {
      h' := h;
      Idle(c, h, n, s, s, [], voted, safe);
    }
  }

  lemma EchoDTickMoves(c: Cluster, h: History, n: NodeId, s: Node, env: Env,
                       voted: set<(NodeId, nat)>, safe: bool) returns (h': History)
    requires At(c, h, n, s, voted, safe) && Leads(s.role) && s.protocol == EchoD
    ensures var o := LeaderTick(s, env); Kept(c, h, Mid(c, n, o.node, o.sent, voted), h', safe)
  {
    hide Inv, Kept, FlushIfDue, PingIfDue, HandoffIfLow;
    var o1 := FlushIfDue(s, env);
    h' := FlushIfDueMoves(c, h, n, s, env, voted, safe);
    var c1 := Mid(c, n, o1.node, o1.sent, voted);
    KeptInv(c, h, c1, h', safe);
    var o2 := PingIfDue(o1.node, o1.node.pingInterval, env);
    PingIfDueMoves(c1, h', n, o1.node, o1.node.pingInterval, env, voted, safe);
    Chain(c, h, n, o1.node, o1.sent, h', o2.node, o2.sent, h', voted, safe);
    var c2 := Mid(c, n, o2.node, o1.sent + o2.sent, voted);
    KeptInv(c, h, c2, h', safe);
    var o3 := HandoffIfLow(o2.node, env);
    HandoffIfLowMoves(c2, h', n, o2.node, env, voted, safe);
    Chain(c, h, n, o2.node, o1.sent + o2.sent, h', o3.node, o3.sent, h', voted, safe);
  }

  lemma TickMoves(c: Cluster, h: History, n: NodeId, s: Node, env: Env,
                  voted: set<(NodeId, nat)>, safe: bool) returns (h': History)
    requires At(c, h, n, s, voted, safe) && s.id == n && Ballot(n, Tick(s, env).node) <= voted
    ensures var o := Tick(s, env); Kept(c, h, Mid(c, n, o.node, o.sent, voted), h', safe)
  {
    hide Inv, Kept, StartElection, PingIfDue, FlushIfDue, HandoffIfLow;
    h' := h;
    if s.role == Observer {
      Idle(c, h, n, s, s, [], voted, safe);
    } else if Leads(s.role) {
      match s.protocol {
        case Raft => PingIfDueMoves(c, h, n, s, RAFT_HEARTBEAT_INTERVAL, env, voted, safe);
        case Echo => PingIfDueMoves(c, h, n, s, LIVENESS_PING_INTERVAL, env, voted, safe);
        case EchoD => h' := EchoDTickMoves(c, h, n, s, env, voted, safe);
      }
    } else if env.now >= s.electionDeadline {
      h' := CampaignMoves(c, h, n, s, env, voted, safe);
    } else {
      Idle(c, h, n, s, s, [], voted, safe);
    }
  }

  // ------------------------------------------------------------------- step

  lemma DeliverMoves(c: Cluster, h: History, a: Action, safe: bool) returns (h': History)
    requires Inv(c, h, safe) && a.Deliver? && Enabled(c, a) && Admissible(c, a, safe) && c.nodes[a.node].id == a.node
    ensures var o := Fire(c.nodes[a.node], a);
      Kept(c, h, Mid(c, a.node, o.node, o.sent, c.voted + Ballot(a.node, o.node)), h', safe)
  {
    hide Inv, Kept, HandleRequestVote, HandleVoteResponse, HandleAppendEntries, HandleAppendResponse,
      HandlePing, HandleSensor, HandleHandoff, HandleReconcile;
    var n, m, env := a.node, a.packet, a.env;
    var s := c.nodes[n];
    var o := Fire(s, a);
    var voted := c.voted + Ballot(n, o.node);
    h' := h;
    match m.payload {
      case RequestVote(_, _, _, _, _) => h' := RequestVoteMoves(c, h, n, s, m, env, voted, safe);
      case VoteResponse(_, _, _, _) => h' := VoteResponseMoves(c, h, n, s, m, env, voted, safe);
      case AppendEntries(_, _, _, _, _, _) => h' := AppendMoves(c, h, n, s, m, env, voted, safe);
      case AppendResponse(_, _, _, _, _, _) => h' := AckMoves(c, h, n, s, m, env, voted, safe);
      case LivenessPing(_, _) => PingMoves(c, h, n, s, m.payload, env, voted, safe);
      case SensorData(_, _, _) => h' := SensorMoves(c, h, n, s, m.payload, env, voted, safe);
      case LeadershipHandoff(_, _) => h' := HandoffMoves(c, h, n, s, m.payload, env, voted, safe);
      case ReconcileBatch(_, _, _) => h' := ReconcileMoves(c, h, n, s, m.payload, env, voted, safe);
    }
  }

  /** Every atomic step of the code keeps the invariant. */
  lemma StepKeeps(c: Cluster, h: History, a: Action, safe: bool) returns (h': History)
    requires Inv(c, h, safe) && Enabled(c, a) && Admissible(c, a, safe)
    ensures Kept(c, h, Apply(c, a), h', safe)
  {
    hide Inv, Kept, Dispatch, Tick, CheckBattery, HandleSensor;
    var n := a.node;
    var s := c.nodes[n];
    var o := Fire(s, a);
    var voted := c.voted + Ballot(n, o.node);
    PeersOf(c, h, n, safe);
    assert Apply(c, a) == Mid(c, n, o.node, o.sent, voted);
    h' := h;
    match a {
      case Deliver(_, _, _) => h' := DeliverMoves(c, h, a, safe);
      case TimerTick(_, env) => h' := TickMoves(c, h, n, s, env, voted, safe);
      case BatteryCheck(_, env) => BatteryMoves(c, h, n, s, env, voted, safe);
      case LeafReport(_, env, report) => h' := SensorMoves(c, h, n, s, report, env, voted, safe);
      case PartitionControl(_, _, heal) => PartitionMoves(c, h, n, s, heal, voted, safe);
    }
  }

  const NoHistory: History := History(map[], map[], map[], map[], map[], map[])

  lemma InitHolds(c: Cluster, safe: bool)
    requires Init(c)
    ensures Inv(c, NoHistory, safe)
  {
    forall n | n in c.nodes ensures VotesOf(c, NoHistory, n) && LogOf(c, NoHistory, n) && CommitOf(c, NoHistory, n) {
      assert Booted(c.nodes[n]);
    }
  }
}
