/** Energy-gated leadership: only the voters check a candidate's battery, yet
    over every run each leader of an `echo` or `echod` cluster had at least
    T_LOW percent when it stood. No hypothesis on batteries, re-entries or acks
    is needed. */
module Energy {
  import opened Types
  import opened Handlers
  import opened Clusters
  import Effects
  import Ledger
  import Refinement
  import Safety

  /** n has asked for votes in term t with battery b. */
  predicate Stands(msgs: set<Packet>, n: NodeId, t: nat, m: Packet) {
    m in msgs && m.src == n && m.payload.RequestVote? && m.payload.term == t
  }

  /** Some voter has found n's battery sufficient in term t. */
  ghost predicate Endorsed(msgs: set<Packet>, n: NodeId, t: nat) {
    exists m :: Stands(msgs, n, t, m) && m.payload.battery >= T_LOW
  }

  ghost predicate BallotOf(c: Cluster, n: NodeId)
    requires n in c.nodes
  {
    var s := c.nodes[n];
    && s.id == n
    && (s.role == Candidate ==> n in s.votes && (s.votes.Keys == {n} || Endorsed(c.msgs, n, s.term)))
    && (Leads(s.role) ==> Endorsed(c.msgs, n, s.term))
    && (s.role == Observer ==> s.votedFor == None)
  }

  ghost predicate BallotPacket(c: Cluster, m: Packet) {
    && (m.payload.RequestVote? ==> m.src in c.nodes && m.payload.term <= c.nodes[m.src].term)
    && (m.payload.VoteResponse? && m.payload.granted ==> m.dst.To? && Endorsed(c.msgs, m.dst.id, m.payload.term))
  }

  predicate SameBattery(m: Packet, m': Packet) {
    m.payload.RequestVote? && m'.payload.RequestVote? && m.src == m'.src && m.payload.term == m'.payload.term ==>
      m.payload.battery == m'.payload.battery
  }

  ghost predicate EnergyInv(c: Cluster) {
    && Configured(c) && c.protocol != Raft && |c.nodes| >= 2
    && (forall n :: n in c.nodes ==> BallotOf(c, n))
    && (forall m :: m in c.msgs ==> BallotPacket(c, m))
    && (forall m, m' :: m in c.msgs && m' in c.msgs ==> SameBattery(m, m'))
  }

  // --------------------------------------------------------- effect of a step

  /** A step that grants votes grants them to a sufficiently charged candidate. */
  predicate Grants(a: Action, m: Packet) {
    m.payload.VoteResponse? && m.payload.granted ==>
      && a.Deliver? && a.packet.payload.RequestVote? && a.packet.payload.battery >= T_LOW
      && m.dst == To(a.packet.src) && m.payload.term == a.packet.payload.term
  }

  predicate Asks(s: Node, o: Out, m: Packet) {
    m.payload.RequestVote? ==>
      && m.src == s.id && m.payload.term == o.node.term > s.term
      && (forall m' :: m' in o.sent && m'.payload.RequestVote? ==> m'.payload.battery == m.payload.battery)
  }

  /** A candidate counted the vote it was sent, if any. */
  ghost predicate Counts(s: Node, a: Action, votes: map<NodeId, Battery>) {
    || votes == s.votes
    || (a.Deliver? && a.packet.payload.VoteResponse? && a.packet.payload.granted && a.packet.payload.term == s.term
        && votes.Keys == s.votes.Keys + {a.packet.src})
  }

  /** An OBSERVER has no vote, if it had none as an OBSERVER before. */
  predicate KeepsWatch(s: Node, s': Node) {
    s'.role == Observer ==> s'.votedFor == None || (s.role == Observer && s'.votedFor == s.votedFor)
  }

  ghost predicate VoteEffect(s: Node, a: Action, o: Out) {
    && o.node.term >= s.term && o.node.id == s.id
    && (o.node.role == Candidate ==>
          || (o.node.term > s.term && o.node.votes.Keys == {s.id})
          || (s.role == Candidate && o.node.term == s.term && Counts(s, a, o.node.votes)))
    && (Leads(o.node.role) ==>
          && o.node.term == s.term
          && (Leads(s.role) || (s.role == Candidate && exists votes :: Counts(s, a, votes) && Majority(|votes|, s))))
    && KeepsWatch(s, o.node)
    && forall m :: m in o.sent ==> Grants(a, m) && Asks(s, o, m)
  }

  /** The step leaves the ballot alone: it may lose office, but neither votes,
      asks for votes nor wins. */
  predicate Plain(s: Node, o: Out) {
    && o.node.id == s.id && o.node.term >= s.term
    && (o.node.role == Candidate ==> s.role == Candidate && o.node.term == s.term && o.node.votes == s.votes)
    && (Leads(o.node.role) ==> Leads(s.role) && o.node.term == s.term)
    && KeepsWatch(s, o.node)
    && forall m :: m in o.sent ==> !m.payload.RequestVote? && (m.payload.VoteResponse? ==> !m.payload.granted)
  }

  lemma PlainVotes(s: Node, a: Action, o: Out)
    requires Plain(s, o)
    ensures VoteEffect(s, a, o)
  {
  }

  lemma ProclaimsPlain(s: Node, o: Out)
    requires Effects.Proclaims(s, o) && Leads(s.role)
    ensures Plain(s, o)
  {
  }

  lemma CampaignVotes(s: Node, a: Action, s0: Node, env: Env)
    requires s0.id == s.id && s0.term >= s.term && s0.role != Observer
    ensures VoteEffect(s, a, StartElection(s0, env))
  {
    hide NewElectionDeadline;
    var o := StartElection(s0, env);
    forall m | m in o.sent ensures m.src == s.id && m.payload == VoteRequest(o.node, env) {
      var i :| 0 <= i < |o.sent| && o.sent[i] == m;
    }
  }

  lemma RequestVotes(s: Node, a: Action)
    requires a.Deliver? && a.packet.payload.RequestVote? && s.protocol != Raft
    ensures VoteEffect(s, a, HandleRequestVote(s, a.packet.src, a.packet.payload, a.env))
  {
    hide StepDown, NewElectionDeadline, UpToDate;
    var p := a.packet.payload;
    Refinement.StepDownShape(s, p.term, a.env);
  }

  lemma ResponseVotes(s: Node, a: Action)
    requires a.Deliver? && a.packet.payload.VoteResponse?
    ensures VoteEffect(s, a, HandleVoteResponse(s, a.packet.src, a.packet.payload, a.env))
  {
    hide StepDown, BecomeLeader, VoteEffect;
    var p := a.packet.payload;
    var o := HandleVoteResponse(s, a.packet.src, p, a.env);
    Refinement.StepDownShape(s, p.term, a.env);
    if p.term != s.term || s.role != Candidate {
      PlainVotes(s, a, o);
    } else {
      var s1 := if p.granted then s.(votes := s.votes[a.packet.src := p.battery]) else s;
      assert Counts(s, a, s1.votes);
      CandidateCounts(s, a, s1);
    }
  }

  lemma CandidateCounts(s: Node, a: Action, s1: Node)
    requires s.role == Candidate && s1 == s.(votes := s1.votes) && Counts(s, a, s1.votes)
    ensures VoteEffect(s, a, if Majority(|s1.votes|, s1) then BecomeLeader(s1, a.env) else Out(s1, []))
  {
    hide BecomeLeader, Counts;
    OfficePlain(s1, a.env);
  }

  lemma OfficePlain(s: Node, env: Env)
    ensures var o := BecomeLeader(s, env);
      && o.node.id == s.id && o.node.term == s.term && o.node.role == Leader
      && forall m :: m in o.sent ==> Effects.IsSpeech(m.payload)
  {
    hide SetAll, FlushPending, SendPing, Heartbeats;
    var s1 := AssumeOffice(s, env);
    Effects.HeartbeatsProclaim(s1);
    Effects.PingsProclaim(s1);
    Effects.FlushPendingProclaims(AssertLeadership(s1).node, env);
  }

  lemma AppendPlain(s: Node, sender: NodeId, p: Payload, env: Env)
    requires p.AppendEntries?
    ensures Plain(s, HandleAppendEntries(s, sender, p, env))
  {
    hide StepDown, AcceptOrReject;
    Refinement.StepDownShape(s, p.term, env);
    Effects.AcceptEffect(if p.term > s.term then StepDown(s, p.term, env) else s, sender, p, env);
  }

  lemma AckPlain(s: Node, sender: NodeId, p: Payload, env: Env)
    requires p.AppendResponse?
    ensures Plain(s, Out(HandleAppendResponse(s, sender, p, env), []))
  {
    hide StepDown, CommitPoint;
    Refinement.StepDownShape(s, p.term, env);
  }

  lemma PingPlain(s: Node, p: Payload, env: Env)
    requires p.LivenessPing?
    ensures Plain(s, Out(HandlePing(s, p, env), []))
  {
    hide StepDown, NewElectionDeadline;
    Refinement.StepDownShape(s, p.term, env);
  }

  lemma SensorPlain(s: Node, p: Payload, env: Env)
    requires p.SensorData?
    ensures Plain(s, HandleSensor(s, p, env))
  {
    hide Replicate, Enqueue, Filtered, SensorKey;
    if Leads(s.role) {
      Effects.SensorProclaims(s, p, env);
      ProclaimsPlain(s, HandleSensor(s, p, env));
    }
  }

  lemma ReconcilePlain(s: Node, p: Payload, env: Env)
    requires p.ReconcileBatch?
    ensures Plain(s, HandleReconcile(s, p, env))
  {
    hide Replicate, ReplicateAll, Screen, Tagged;
    if Leads(s.role) {
      Effects.ReconcileProclaims(s, p, env);
      ProclaimsPlain(s, HandleReconcile(s, p, env));
    }
  }

  lemma HandoffVotes(s: Node, a: Action, p: Payload, env: Env)
    requires p.LeadershipHandoff?
    ensures VoteEffect(s, a, HandleHandoff(s, p, env))
  {
    hide StepDown, StartElection, VoteEffect;
    if s.protocol != EchoD || s.role == Observer || p.term < s.term {
      PlainVotes(s, a, Out(s, []));
    } else {
      Refinement.StepDownShape(s, p.term, env);
      CampaignVotes(s, a, if p.term > s.term then StepDown(s, p.term, env) else s, env);
    }
  }

  lemma LeaderTickPlain(s: Node, env: Env)
    requires Leads(s.role)
    ensures Plain(s, LeaderTick(s, env))
  {
    hide FlushIfDue, PingIfDue, HandoffIfLow;
    var o1 := FlushIfDue(s, env);
    Effects.FlushIfDueProclaims(s, env);
    Effects.PingIfDueProclaims(s, RAFT_HEARTBEAT_INTERVAL, env);
    Effects.PingIfDueProclaims(s, LIVENESS_PING_INTERVAL, env);
    Effects.PingIfDueProclaims(o1.node, o1.node.pingInterval, env);
    Effects.HandoffIfLowEffect(PingIfDue(o1.node, o1.node.pingInterval, env).node, env);
  }

  lemma DeliverVotes(s: Node, a: Action)
    requires a.Deliver? && s.protocol != Raft
    ensures VoteEffect(s, a, Fire(s, a))
  {
    hide HandleRequestVote, HandleVoteResponse, HandleAppendEntries, HandleAppendResponse,
      HandlePing, HandleSensor, HandleHandoff, HandleReconcile, VoteEffect, Plain;
    var sender, p, env := a.packet.src, a.packet.payload, a.env;
    match p {
      case RequestVote(_, _, _, _, _) => RequestVotes(s, a);
      case VoteResponse(_, _, _, _) => ResponseVotes(s, a);
      case LeadershipHandoff(_, _) => HandoffVotes(s, a, p, env);
      case AppendEntries(_, _, _, _, _, _) => AppendPlain(s, sender, p, env);
      case AppendResponse(_, _, _, _, _, _) => AckPlain(s, sender, p, env);
      case LivenessPing(_, _) => PingPlain(s, p, env);
      case SensorData(_, _, _) => SensorPlain(s, p, env);
      case ReconcileBatch(_, _, _) => ReconcilePlain(s, p, env);
    }
    if Plain(s, Fire(s, a)) { PlainVotes(s, a, Fire(s, a)); }
  }

  lemma CheckPlain(s: Node, env: Env)
    ensures Plain(s, Out(CheckBattery(s, env), []))
  {
    hide Plain;
    if s.protocol != Raft && env.battery < T_LOW && s.role != Observer {
      RolePlain(s, s.(role := Observer, votedFor := None));
    } else if s.protocol != Raft && env.battery >= T_RESTORE && s.role == Observer {
      RolePlain(s, s.(role := Follower));
    } else {
      RolePlain(s, s);
    }
  }

  lemma RolePlain(s: Node, s': Node)
    requires s'.id == s.id && s'.term == s.term && s'.votes == s.votes
    requires s'.role == s.role || s'.role in {Follower, Observer}
    requires KeepsWatch(s, s')
    ensures Plain(s, Out(s', []))
  {
  }

  lemma PartitionPlain(s: Node, heal: bool)
    ensures Plain(s, Out(Handlers.HandlePartitionControl(s, heal), []))
  {
  }

  lemma TickVotes(s: Node, a: Action, env: Env)
    ensures VoteEffect(s, a, Tick(s, env))
  {
    hide LeaderTick, StartElection, VoteEffect;
    if Leads(s.role) {
      LeaderTickPlain(s, env);
      PlainVotes(s, a, Tick(s, env));
    } else if s.role != Observer && env.now >= s.electionDeadline {
      CampaignVotes(s, a, s, env);
    } else {
      PlainVotes(s, a, Tick(s, env));
    }
  }

  lemma FireVotes(s: Node, a: Action)
    requires a.LeafReport? ==> a.report.SensorData?
    requires s.protocol != Raft
    ensures VoteEffect(s, a, Fire(s, a))
  {
    hide Dispatch, HandleSensor, Tick, VoteEffect, CheckBattery, Handlers.HandlePartitionControl, Plain;
    match a {
      case Deliver(_, _, _) => DeliverVotes(s, a);
      case TimerTick(_, env) => TickVotes(s, a, env);
      case LeafReport(_, env, report) =>
        SensorPlain(s, report, env);
        PlainVotes(s, a, Fire(s, a));
      case BatteryCheck(_, env) =>
        CheckPlain(s, env);
        PlainVotes(s, a, Fire(s, a));
      case PartitionControl(_, _, heal) =>
        PartitionPlain(s, heal);
        PlainVotes(s, a, Fire(s, a));
    }
  }

  // -------------------------------------------------------------- invariant

  lemma EndorsedGrows(msgs: set<Packet>, msgs': set<Packet>, n: NodeId, t: nat)
    requires Endorsed(msgs, n, t) && msgs <= msgs'
    ensures Endorsed(msgs', n, t)
  {
    var m :| Stands(msgs, n, t, m) && m.payload.battery >= T_LOW;
    assert Stands(msgs', n, t, m);
  }

  /** A granted vote that the candidate counts endorses it. */
  lemma CountedVote(c: Cluster, a: Action, votes: map<NodeId, Battery>)
    requires EnergyInv(c) && Enabled(c, a) && Counts(c.nodes[a.node], a, votes)
    requires c.nodes[a.node].role == Candidate
    ensures a.node in votes && (votes.Keys == {a.node} || Endorsed(c.msgs, a.node, c.nodes[a.node].term))
  {
    var s := c.nodes[a.node];
    assert BallotOf(c, a.node);
    if votes != s.votes {
      assert BallotPacket(c, a.packet);
      assert a.packet.dst == To(a.node);
    }
  }

  lemma MoverBallot(c: Cluster, a: Action)
    requires EnergyInv(c) && Enabled(c, a) && VoteEffect(c.nodes[a.node], a, Fire(c.nodes[a.node], a))
    ensures BallotOf(Apply(c, a), a.node)
  {
    hide Fire, EnergyInv, Endorsed;
    var n, s := a.node, c.nodes[a.node];
    var o := Fire(s, a);
    var c' := Apply(c, a);
    MoverParts(c, a);
    if Endorsed(c.msgs, n, s.term) { EndorsedGrows(c.msgs, c'.msgs, n, s.term); }
    if o.node.role == Candidate && o.node.term == s.term {
      CountedVote(c, a, o.node.votes);
    } else if Leads(o.node.role) && !Leads(s.role) {
      var votes :| Counts(s, a, votes) && Majority(|votes|, s);
      CountedVote(c, a, votes);
      assert |{n}| == 1;
      assert |votes| == |votes.Keys|;
    }
  }

  lemma MoverParts(c: Cluster, a: Action)
    requires EnergyInv(c) && Enabled(c, a)
    ensures BallotOf(c, a.node) && |c.nodes[a.node].peers| >= 1
  {
    assert ConfiguredNode(c, a.node);
  }

  lemma OtherBallot(c: Cluster, a: Action, n: NodeId)
    requires EnergyInv(c) && Enabled(c, a) && n in c.nodes && n != a.node
    ensures BallotOf(Apply(c, a), n)
  {
    hide Fire, EnergyInv, Endorsed;
    OtherParts(c, n);
    if Endorsed(c.msgs, n, c.nodes[n].term) { EndorsedGrows(c.msgs, Apply(c, a).msgs, n, c.nodes[n].term); }
  }

  lemma OtherParts(c: Cluster, n: NodeId)
    requires EnergyInv(c) && n in c.nodes
    ensures BallotOf(c, n)
  {
  }

  lemma OldPacket(c: Cluster, a: Action, m: Packet)
    requires EnergyInv(c) && Enabled(c, a) && m in c.msgs && Fire(c.nodes[a.node], a).node.term >= c.nodes[a.node].term
    ensures BallotPacket(Apply(c, a), m)
  {
    hide Fire, Endorsed;
    assert BallotPacket(c, m);
    if m.payload.VoteResponse? && m.payload.granted {
      EndorsedGrows(c.msgs, Apply(c, a).msgs, m.dst.id, m.payload.term);
    }
  }

  lemma NewPacket(c: Cluster, a: Action, m: Packet)
    requires EnergyInv(c) && Enabled(c, a) && VoteEffect(c.nodes[a.node], a, Fire(c.nodes[a.node], a))
    requires m in Fire(c.nodes[a.node], a).sent
    ensures BallotPacket(Apply(c, a), m)
  {
    hide Fire, EnergyInv, Configured;
    OtherParts(c, a.node);
    var s := c.nodes[a.node];
    assert Grants(a, m) && Asks(s, Fire(s, a), m);
    if m.payload.VoteResponse? && m.payload.granted {
      assert Stands(Apply(c, a).msgs, a.packet.src, m.payload.term, a.packet);
    }
  }

  lemma SameBatteries(c: Cluster, a: Action, m: Packet, m': Packet)
    requires EnergyInv(c) && Enabled(c, a) && VoteEffect(c.nodes[a.node], a, Fire(c.nodes[a.node], a))
    requires m in Apply(c, a).msgs && m' in Apply(c, a).msgs
    ensures SameBattery(m, m')
  {
    hide Fire, Configured;
    var s, o := c.nodes[a.node], Fire(c.nodes[a.node], a);
    assert BallotOf(c, a.node);
    if m in o.sent { assert Asks(s, o, m); }
    if m' in o.sent { assert Asks(s, o, m'); }
    if m in c.msgs { assert BallotPacket(c, m); }
    if m' in c.msgs { assert BallotPacket(c, m'); }
  }

  lemma ConfiguredStays(c: Cluster, a: Action)
    requires Configured(c) && Enabled(c, a)
    ensures Configured(Apply(c, a))
  {
    hide Fire;
    Ledger.EnabledAccounts(c, a);
    assert ConfiguredNode(c, a.node);
    forall n | n in c.nodes ensures ConfiguredNode(Apply(c, a), n) {
      assert ConfiguredNode(c, n);
      assert Apply(c, a).nodes.Keys == c.nodes.Keys;
    }
  }

  lemma EnergyStep(c: Cluster, a: Action)
    requires EnergyInv(c) && Enabled(c, a)
    ensures EnergyInv(Apply(c, a))
  {
    hide Fire, VoteEffect, BallotOf, BallotPacket, SameBattery, Configured;
    var s, c' := c.nodes[a.node], Apply(c, a);
    ConfiguredStays(c, a);
    NotRaft(c, a.node);
    FireVotes(s, a);
    VotesLater(s, a, Fire(s, a));
    forall n | n in c'.nodes ensures BallotOf(c', n) {
      if n == a.node { MoverBallot(c, a); } else { OtherBallot(c, a, n); }
    }
    forall m | m in c'.msgs ensures BallotPacket(c', m) {
      if m in Fire(s, a).sent { NewPacket(c, a, m); } else { OldPacket(c, a, m); }
    }
    forall m, m' | m in c'.msgs && m' in c'.msgs ensures SameBattery(m, m') {
      SameBatteries(c, a, m, m');
    }
    assert c'.nodes.Keys == c.nodes.Keys;
  }

  lemma NotRaft(c: Cluster, n: NodeId)
    requires EnergyInv(c) && n in c.nodes
    ensures c.nodes[n].protocol != Raft
  {
    assert ConfiguredNode(c, n);
  }

  lemma VotesLater(s: Node, a: Action, o: Out)
    requires VoteEffect(s, a, o)
    ensures o.node.term >= s.term
  {
  }

  lemma EnergyStart(c: Cluster)
    requires Init(c) && c.protocol != Raft && |c.nodes| >= 2
    ensures EnergyInv(c)
  {
    forall n | n in c.nodes ensures BallotOf(c, n) {
      assert Booted(c.nodes[n]) && ConfiguredNode(c, n);
    }
  }

  lemma {:induction false} EnergyThroughout(run: seq<Cluster>, acts: seq<Action>)
    requires IsRun(run, acts) && run[0].protocol != Raft && |run[0].nodes| >= 2
    ensures EnergyInv(run[|acts|])
    decreases |acts|
  {
    hide Fire, Init, Enabled, EnergyInv;
    if acts == [] {
      EnergyStart(run[0]);
    } else {
      var last := |acts| - 1;
      Safety.PrefixIsRun(run, acts);
      assert run[..last + 1][0] == run[0] && run[..last + 1][last] == run[last];
      EnergyThroughout(run[..last + 1], acts[..last]);
      EnergyStep(run[last], acts[last]);
    }
  }

  /** Energy-gated leadership: whoever leads a term asked for votes in it, and
      every request it sent carried a battery of at least T_LOW. */
  lemma LeadersWereCharged(run: seq<Cluster>, acts: seq<Action>, n: NodeId)
    requires IsRun(run, acts) && run[0].protocol != Raft && |run[0].nodes| >= 2
    requires n in run[|acts|].nodes && Leads(run[|acts|].nodes[n].role)
    ensures var c := run[|acts|];
      && (exists m :: Stands(c.msgs, n, c.nodes[n].term, m))
      && (forall m :: Stands(c.msgs, n, c.nodes[n].term, m) ==> m.payload.battery >= T_LOW)
  {
    hide Fire, Init, Apply, Enabled, BallotPacket, Configured;
    EnergyThroughout(run, acts);
    var c := run[|acts|];
    assert BallotOf(c, n);
    var r :| Stands(c.msgs, n, c.nodes[n].term, r) && r.payload.battery >= T_LOW;
    forall m | Stands(c.msgs, n, c.nodes[n].term, m) ensures m.payload.battery >= T_LOW {
      assert SameBattery(r, m);
    }
  }

  /** The request's battery is the one sampled when the election started. */
  lemma RequestCarriesSample(s: Node, env: Env)
    ensures forall m :: m in StartElection(s, env).sent ==> m.payload.RequestVote? && m.payload.battery == env.battery
  {
    hide NewElectionDeadline;
    var o := StartElection(s, env);
    forall m | m in o.sent ensures m.payload.RequestVote? && m.payload.battery == env.battery {
      var i :| 0 <= i < |o.sent| && o.sent[i] == m;
      assert m.payload == VoteRequest(o.node, env);
    }
  }

  // ----------------------------------------------------- votes of OBSERVERs

  /** The node, unless it is an OBSERVER, knows that it has voted in its term. */
  predicate Remembers(c: Cluster, n: NodeId)
    requires n in c.nodes
  {
    c.nodes[n].role != Observer && (n, c.nodes[n].term) in c.voted ==> c.nodes[n].votedFor.Some?
  }

  /** A request of the node's term whose battery and log are good enough. */
  predicate Qualifies(s: Node, p: Payload) {
    p.RequestVote? && p.term == s.term && p.battery >= T_LOW && UpToDate(s.log, p.lastIndex, p.lastTerm)
  }

  /** Re-entry keeps the memory of a vote exactly when it is fresh. When it is
      not, the node grants a second vote in the term to any candidate whose
      battery and log qualify. */
  lemma ReentryForgets(run: seq<Cluster>, acts: seq<Action>, n: NodeId, env: Env)
    requires IsRun(run, acts) && run[0].protocol != Raft && |run[0].nodes| >= 2 && n in run[|acts|].nodes
    requires run[|acts|].nodes[n].role == Observer && env.battery >= T_RESTORE
    ensures var c, a := run[|acts|], BatteryCheck(n, env);
      && (Remembers(Apply(c, a), n) <==> FreshReentry(c, a))
      && (!FreshReentry(c, a) ==> forall p :: Qualifies(c.nodes[n], p) ==> GrantsVote(Apply(c, a).nodes[n], p))
  {
    hide Init, UpToDate, BallotPacket;
    EnergyThroughout(run, acts);
    var c := run[|acts|];
    NotRaft(c, n);
    assert BallotOf(c, n);
  }

  /** Nobody has voted in a term it has not reached. */
  ghost predicate VotedBound(c: Cluster) {
    forall v, t :: (v, t) in c.voted ==> v in c.nodes && t <= c.nodes[v].term
  }

  lemma {:induction false} VotesAreReached(run: seq<Cluster>, acts: seq<Action>)
    requires IsRun(run, acts)
    ensures VotedBound(run[|acts|])
    decreases |acts|
  {
    hide Fire, Enabled;
    if acts != [] {
      var last := |acts| - 1;
      Safety.PrefixIsRun(run, acts);
      VotesAreReached(run[..last + 1], acts[..last]);
      assert run[..last + 1][last] == run[last];
      ReachedStep(run[last], acts[last]);
    }
  }

  lemma ReachedStep(c: Cluster, a: Action)
    requires VotedBound(c) && Enabled(c, a)
    ensures VotedBound(Apply(c, a))
  {
    hide Fire;
    Effects.TermsGrow(c.nodes[a.node], a);
  }

  /** Re-entry in a later term than the one left is fresh: an OBSERVER does not
      vote, so it has not voted in any term it reached while watching. */
  lemma {:induction false} LaterReentryIsFresh(run: seq<Cluster>, acts: seq<Action>, n: NodeId, i: nat, j: nat)
    requires IsRun(run, acts) && run[0].protocol != Raft && |run[0].nodes| >= 2 && i <= j <= |acts|
    requires forall k :: i <= k <= j ==> n in run[k].nodes && run[k].nodes[n].role == Observer
    requires run[j].nodes[n].term > run[i].nodes[n].term
    ensures (n, run[j].nodes[n].term) !in run[j].voted
    decreases j - i
  {
    hide Init, Fire, Enabled, VotedBound, EnergyInv;
    assert i < j;
    var c, a, c' := run[j - 1], acts[j - 1], run[j - 1 + 1];
    RunPrefix(run, acts, j - 1);
    VotesAreReached(run[..j], acts[..j - 1]);
    RunPrefix(run, acts, j);
    EnergyThroughout(run[..j + 1], acts[..j]);
    assert run[..j][j - 1] == c && run[..j + 1][j] == c' && run[..j + 1][0] == run[0];
    WatchingStep(c, a, n);
    if c.nodes[n].term > run[i].nodes[n].term { LaterReentryIsFresh(run, acts, n, i, j - 1); }
  }

  lemma RunPrefix(run: seq<Cluster>, acts: seq<Action>, k: nat)
    requires IsRun(run, acts) && k <= |acts|
    ensures IsRun(run[..k + 1], acts[..k])
    ensures k < |acts| ==> Enabled(run[k], acts[k]) && run[k + 1] == Apply(run[k], acts[k])
  {
    hide Init, Apply, Enabled;
  }

  /** An OBSERVER's step adds no vote of its own, and a new term is unvoted. */
  lemma WatchingStep(c: Cluster, a: Action, n: NodeId)
    requires Enabled(c, a) && VotedBound(c) && EnergyInv(Apply(c, a)) && n in c.nodes
    requires c.nodes[n].role == Observer && Apply(c, a).nodes[n].role == Observer
    ensures var c' := Apply(c, a);
      && (c'.nodes[n].term == c.nodes[n].term ==>
            ((n, c.nodes[n].term) in c'.voted <==> (n, c.nodes[n].term) in c.voted))
      && (c'.nodes[n].term > c.nodes[n].term ==> (n, c'.nodes[n].term) !in c'.voted)
      && c'.nodes[n].term >= c.nodes[n].term
  {
    hide Fire, Configured, BallotPacket;
    Effects.TermsGrow(c.nodes[a.node], a);
    assert BallotOf(Apply(c, a), n);
  }
}
