/** What one step of a coordinator can do to its role, term and leader belief,
    and what it can say as a leader. */
module Effects {
  import opened Types
  import opened Handlers
  import opened Clusters

  /** The packet speaks for a leader of term t called l. */
  predicate Speaks(p: Payload, t: nat, l: NodeId) {
    (p.LivenessPing? || p.AppendEntries?) && p.term == t && p.leader == l
  }

  predicate IsSpeech(p: Payload) {
    p.LivenessPing? || p.AppendEntries?
  }

  /** What the step hears: the packet it delivers, if any. */
  predicate Hears(a: Action, t: nat, l: NodeId) {
    a.Deliver? && Speaks(a.packet.payload, t, l)
  }

  /** A leader sent only log entries, pings and reconciliations, and stays what
      it is. */
  predicate Proclaims(s: Node, o: Out) {
    && o.node.id == s.id && o.node.role == s.role && o.node.term == s.term && o.node.leader == s.leader
    && o.node.commit == s.commit
    && forall m :: m in o.sent ==> m.src == s.id && Speaks(m.payload, s.term, s.id)
  }

  ghost predicate BeliefEffect(s: Node, a: Action, s': Node) {
    || s'.leader == s.leader
    || s'.leader == None
    || (Leads(s'.role) && s'.leader == Some(s.id))
    || exists l: NodeId :: Hears(a, s'.term, l) && s'.leader == Some(l)
  }

  ghost predicate OfficeEffect(s: Node, a: Action, s': Node) {
    && s'.term >= s.term
    && (Leads(s'.role) && s'.leader != Some(s.id) ==>
          Leads(s.role) && s'.term == s.term && (s'.leader == s.leader || exists l: NodeId :: Hears(a, s.term, l)))
    && (s'.term == s.term && s.role in {Follower, Observer} ==> s'.role in {Follower, Observer})
  }

  ghost predicate SpeechEffect(s: Node, s': Node, m: Packet) {
    && (IsSpeech(m.payload) ==>
          && m.src == s.id && Speaks(m.payload, s'.term, s.id)
          && ((Leads(s.role) && s.term == s'.term && s'.leader == s.leader)
              || (Leads(s'.role) && s'.leader == Some(s.id))))
    && (m.payload.LeadershipHandoff? ==>
          && m.src == s.id && m.payload.leader == s.id && m.payload.term == s.term == s'.term
          && Leads(s.role) && s'.role == Follower)
  }

  ghost predicate Effect(s: Node, a: Action, o: Out) {
    && BeliefEffect(s, a, o.node) && OfficeEffect(s, a, o.node)
    && (forall m :: m in o.sent ==> SpeechEffect(s, o.node, m))
    && (forall m, m' :: m in o.sent && m' in o.sent && m.payload.LeadershipHandoff? && m'.payload.LeadershipHandoff? ==>
          m == m')
  }

  // ------------------------------------------------------------ proclaiming

  lemma HeartbeatsProclaim(s: Node)
    ensures forall m :: m in Heartbeats(s) ==> m.src == s.id && Speaks(m.payload, s.term, s.id)
  {
    forall peer ensures Speaks(AppendTo(s, peer).payload, s.term, s.id) {
    }
  }

  lemma PingsProclaim(s: Node)
    ensures Proclaims(s, SendPing(s))
  {
    var sent := SendPing(s).sent;
    forall m | m in sent ensures m.src == s.id && Speaks(m.payload, s.term, s.id) {
      var i :| 0 <= i < |sent| && sent[i] == m;
      assert m.payload == Ping(s);
    }
  }

  lemma ReplicateProclaims(s: Node, command: Command, trigger: Trigger)
    ensures Proclaims(s, Replicate(s, command, trigger))
  {
    HeartbeatsProclaim(Replicate(s, command, trigger).node);
  }

  lemma {:induction false} ReplicateAllProclaims(s: Node, proposals: seq<(Command, Trigger)>)
    ensures Proclaims(s, ReplicateAll(s, proposals))
    decreases |proposals|
  {
    hide Replicate;
    if proposals != [] {
      var first := Replicate(s, proposals[0].0, proposals[0].1);
      ReplicateProclaims(s, proposals[0].0, proposals[0].1);
      ReplicateAllProclaims(first.node, proposals[1..]);
    }
  }

  lemma FlushPendingProclaims(s: Node, env: Env)
    ensures Proclaims(s, FlushPending(s, env))
  {
    hide Replicate, ReplicateAll;
    if s.pending != [] {
      var s1 := s.(pending := [], lastActivity := Later(env));
      ReplicateProclaims(s1, Batch(Commands(s.pending), |s.pending|), s.pending[0].1);
      ReplicateAllProclaims(s1, s.pending);
    }
  }

  lemma FlushBatchProclaims(s: Node, env: Env)
    ensures Proclaims(s, FlushBatch(s, env))
  {
    hide Replicate;
    ReplicateProclaims(s.(batch := [], batchDeadline := None, lastActivity := env.now),
      if s.batch == [] || |s.batch| > 1 then Batch(s.batch, |s.batch|) else s.batch[0], Delta);
  }

  lemma EnqueueProclaims(s: Node, command: Command, env: Env)
    ensures Proclaims(s, Enqueue(s, command, env))
  {
    hide FlushBatch;
    FlushBatchProclaims(s.(batch := s.batch + [command],
      batchDeadline := if s.batchDeadline == None then Some(env.now + BATCH_WINDOW) else s.batchDeadline), env);
  }

  lemma ProclaimingEffect(s: Node, a: Action, o: Out)
    requires Proclaims(s, o) && Leads(s.role)
    ensures Effect(s, a, o)
  {
  }

  // --------------------------------------------------------------- handlers

  lemma StepDownEffect(s: Node, t: nat, env: Env)
    ensures var s' := StepDown(s, t, env);
      s'.id == s.id && s'.term == t && s'.leader == s.leader && s'.role in {Follower, Observer}
  {
    hide NewElectionDeadline;
  }

  /** The step leaves office, or never held it, and says nothing as a leader. */
  lemma HumbleEffect(s: Node, a: Action, o: Out)
    requires o.node.term >= s.term && !Leads(o.node.role)
    requires o.node.term == s.term && s.role in {Follower, Observer} ==> o.node.role in {Follower, Observer}
    requires BeliefEffect(s, a, o.node)
    requires forall m :: m in o.sent ==> !IsSpeech(m.payload) && !m.payload.LeadershipHandoff?
    ensures Effect(s, a, o)
  {
  }

  lemma CampaignEffect(s: Node, a: Action, s0: Node, env: Env)
    requires s0.id == s.id && s0.term >= s.term && s0.leader == s.leader && s0.role != Observer
    ensures Effect(s, a, StartElection(s0, env))
  {
    hide NewElectionDeadline;
    var o := StartElection(s0, env);
    forall m | m in o.sent ensures m.payload.RequestVote? {
      var i :| 0 <= i < |o.sent| && o.sent[i] == m;
      assert m.payload == VoteRequest(o.node, env);
    }
    HumbleEffect(s, a, o);
  }

  lemma BecomeLeaderEffect(s: Node, a: Action, s0: Node, env: Env)
    requires s0.id == s.id && s0.term == s.term && s.role == Candidate
    ensures Effect(s, a, BecomeLeader(s0, env))
  {
    hide SetAll, FlushPending, SendPing, Heartbeats;
    var s1 := AssumeOffice(s0, env);
    HeartbeatsProclaim(s1);
    PingsProclaim(s1);
    FlushPendingProclaims(AssertLeadership(s1).node, env);
  }

  lemma RequestVoteEffect(s: Node, a: Action, sender: NodeId, p: Payload, env: Env)
    requires p.RequestVote?
    ensures Effect(s, a, HandleRequestVote(s, sender, p, env))
  {
    hide StepDown, NewElectionDeadline, UpToDate;
    StepDownEffect(s, p.term, env);
  }

  lemma VoteResponseEffect(s: Node, a: Action, sender: NodeId, p: Payload, env: Env)
    requires p.VoteResponse?
    ensures Effect(s, a, HandleVoteResponse(s, sender, p, env))
  {
    hide StepDown, BecomeLeader;
    StepDownEffect(s, p.term, env);
    if s.role == Candidate && p.term == s.term {
      BecomeLeaderEffect(s, a, if p.granted then s.(votes := s.votes[sender := p.battery]) else s, env);
    }
  }

  lemma {:induction false} StoreAllEffect(s: Node, entries: Log)
    ensures StoreAll(s, entries).node == s.(log := StoreAll(s, entries).node.log)
    ensures forall m :: m in StoreAll(s, entries).sent ==> m.payload.ReconcileBatch?
    decreases |entries|
  {
    hide Store;
    if entries != [] {
      StoreEffect(s, entries[0]);
      StoreAllEffect(Store(s, entries[0]).node, entries[1..]);
    }
  }

  lemma StoreEffect(s: Node, e: LogEntry)
    ensures Store(s, e).node == s.(log := Store(s, e).node.log)
    ensures forall m :: m in Store(s, e).sent ==> m.payload.ReconcileBatch?
  {
  }

  lemma AcceptEffect(s: Node, sender: NodeId, p: Payload, env: Env)
    requires p.AppendEntries?
    ensures var o := AcceptOrReject(s, sender, p, env);
      && o.node.id == s.id && o.node.term == s.term && o.node.leader == Some(p.leader) && o.node.votedFor == s.votedFor
      && o.node.role == (if s.role == Candidate then Follower else s.role)
      && (forall m :: m in o.sent ==> m.payload.ReconcileBatch? || m.payload.AppendResponse?)
  {
    hide StoreAll, NewElectionDeadline;
    StoreAllEffect(ResetElectionTimer(s, env).(leader := Some(p.leader),
      role := if s.role == Candidate then Follower else s.role), p.entries);
  }

  lemma AppendEffect(s: Node, a: Action, env: Env)
    requires a.Deliver? && a.packet.payload.AppendEntries?
    ensures Effect(s, a, HandleAppendEntries(s, a.packet.src, a.packet.payload, env))
  {
    hide StepDown, AcceptOrReject;
    var p := a.packet.payload;
    var s1 := if p.term > s.term then StepDown(s, p.term, env) else s;
    StepDownEffect(s, p.term, env);
    if p.term >= s1.term {
      AcceptEffect(s1, a.packet.src, p, env);
      assert Hears(a, s1.term, p.leader);
    }
  }

  lemma AckShape(s: Node, sender: NodeId, p: Payload, env: Env)
    requires p.AppendResponse? && p.term <= s.term
    ensures var s' := HandleAppendResponse(s, sender, p, env);
      s'.id == s.id && s'.role == s.role && s'.term == s.term && s'.leader == s.leader
  {
    hide CommitPoint;
  }

  lemma AckEffect(s: Node, a: Action, sender: NodeId, p: Payload, env: Env)
    requires p.AppendResponse?
    ensures Effect(s, a, Out(HandleAppendResponse(s, sender, p, env), []))
  {
    hide HandleAppendResponse;
    if p.term <= s.term {
      AckShape(s, sender, p, env);
    } else {
      AckStepsDown(s, sender, p, env);
    }
  }

  lemma AckStepsDown(s: Node, sender: NodeId, p: Payload, env: Env)
    requires p.AppendResponse? && p.term > s.term
    ensures var s' := HandleAppendResponse(s, sender, p, env);
      s'.id == s.id && s'.term == p.term && s'.leader == s.leader && s'.role in {Follower, Observer}
  {
    hide StepDown, CommitPoint;
    StepDownEffect(s, p.term, env);
  }

  lemma PingEffect(s: Node, a: Action, env: Env)
    requires a.Deliver? && a.packet.payload.LivenessPing?
    ensures Effect(s, a, Out(HandlePing(s, a.packet.payload, env), []))
  {
    hide StepDown, NewElectionDeadline;
    var p := a.packet.payload;
    StepDownEffect(s, p.term, env);
    if p.term >= s.term { assert Hears(a, p.term, p.leader); }
  }

  lemma SensorProclaims(s: Node, p: Payload, env: Env)
    requires p.SensorData? && Leads(s.role)
    ensures Proclaims(s, HandleSensor(s, p, env))
  {
    hide Replicate, Enqueue, Filtered, SensorKey;
    var s1 := s.(lastSensor := s.lastSensor[SensorKey(p) := p.value]);
    ReplicateProclaims(s, ReadingOf(p), Event);
    ReplicateProclaims(s1, ReadingOf(p), Delta);
    EnqueueProclaims(s1, ReadingOf(p), env);
  }

  lemma SensorEffect(s: Node, a: Action, p: Payload, env: Env)
    requires p.SensorData?
    ensures Effect(s, a, HandleSensor(s, p, env))
  {
    hide Replicate, Enqueue, Filtered, SensorKey;
    if Leads(s.role) {
      SensorProclaims(s, p, env);
      ProclaimingEffect(s, a, HandleSensor(s, p, env));
    }
  }

  lemma ReconcileProclaims(s: Node, p: Payload, env: Env)
    requires p.ReconcileBatch?
    ensures Proclaims(s, HandleReconcile(s, p, env))
  {
    hide Replicate, ReplicateAll, Screen, Tagged;
    var (window, unseen) := Screen(s.recent, p.commands);
    var s2 := s.(recent := Trim(window), lastActivity := env.now);
    ReplicateProclaims(s2, Batch(unseen, |unseen|), Reconcile);
    ReplicateAllProclaims(s2, Tagged(unseen, Reconcile));
  }

  lemma ReconcileEffect(s: Node, a: Action, p: Payload, env: Env)
    requires p.ReconcileBatch?
    ensures Effect(s, a, HandleReconcile(s, p, env))
  {
    hide Replicate, ReplicateAll, Screen, Tagged;
    if Leads(s.role) {
      ReconcileProclaims(s, p, env);
      ProclaimingEffect(s, a, HandleReconcile(s, p, env));
    }
  }

  lemma HandoffEffect(s: Node, a: Action, p: Payload, env: Env)
    requires p.LeadershipHandoff?
    ensures Effect(s, a, HandleHandoff(s, p, env))
  {
    hide StepDown, StartElection;
    if s.protocol == EchoD && s.role != Observer && p.term >= s.term {
      StepDownEffect(s, p.term, env);
      var s0 := if p.term > s.term then StepDown(s, p.term, env) else s;
      StepDownKeepsObserver(s, p.term, env);
      CampaignEffect(s, a, s0, env);
    }
  }

  lemma StepDownKeepsObserver(s: Node, t: nat, env: Env)
    ensures StepDown(s, t, env).role == Observer <==> s.role == Observer
  {
    hide NewElectionDeadline;
  }

  lemma LeaderTickEffect(s: Node, a: Action, env: Env)
    requires Leads(s.role)
    ensures Effect(s, a, LeaderTick(s, env)) && LeaderTick(s, env).node.commit == s.commit
  {
    hide FlushIfDue, PingIfDue, HandoffIfLow;
    var o1 := FlushIfDue(s, env);
    FlushIfDueProclaims(s, env);
    PingIfDueProclaims(s, RAFT_HEARTBEAT_INTERVAL, env);
    PingIfDueProclaims(s, LIVENESS_PING_INTERVAL, env);
    PingIfDueProclaims(o1.node, o1.node.pingInterval, env);
    HandoffIfLowEffect(PingIfDue(o1.node, o1.node.pingInterval, env).node, env);
  }

  lemma FlushIfDueProclaims(s: Node, env: Env)
    ensures Proclaims(s, FlushIfDue(s, env))
  {
    hide FlushBatch;
    FlushBatchProclaims(s, env);
  }

  lemma PingIfDueProclaims(s: Node, interval: real, env: Env)
    ensures Proclaims(s, PingIfDue(s, interval, env))
  {
    hide SendPing, Heartbeats;
    PingsProclaim(s);
    HeartbeatsProclaim(s);
  }

  lemma HandoffIfLowEffect(s: Node, env: Env)
    ensures var o := HandoffIfLow(s, env);
      && o.node.id == s.id && o.node.term == s.term && o.node.leader == s.leader && o.node.commit == s.commit
      && (o.node.role == s.role || o.node.role == Follower) && |o.sent| <= 1
      && (forall m :: m in o.sent ==>
            m.src == s.id && m.payload == LeadershipHandoff(s.term, s.id) && o.node.role == Follower)
  {
    hide Successor, NewElectionDeadline;
  }

  lemma DeliverEffect(s: Node, a: Action)
    requires a.Deliver?
    ensures Effect(s, a, Fire(s, a))
  {
    hide HandleRequestVote, HandleVoteResponse, HandleAppendEntries, HandleAppendResponse,
      HandlePing, HandleSensor, HandleHandoff, HandleReconcile, Effect;
    var sender, p, env := a.packet.src, a.packet.payload, a.env;
    match p {
      case RequestVote(_, _, _, _, _) => RequestVoteEffect(s, a, sender, p, env);
      case VoteResponse(_, _, _, _) => VoteResponseEffect(s, a, sender, p, env);
      case AppendEntries(_, _, _, _, _, _) => AppendEffect(s, a, env);
      case AppendResponse(_, _, _, _, _, _) => AckEffect(s, a, sender, p, env);
      case LivenessPing(_, _) => PingEffect(s, a, env);
      case SensorData(_, _, _) => SensorEffect(s, a, p, env);
      case LeadershipHandoff(_, _) => HandoffEffect(s, a, p, env);
      case ReconcileBatch(_, _, _) => ReconcileEffect(s, a, p, env);
    }
  }

  lemma TickEffect(s: Node, a: Action, env: Env)
    ensures Effect(s, a, Tick(s, env))
  {
    hide LeaderTick, StartElection;
    if Leads(s.role) {
      LeaderTickEffect(s, a, env);
    } else if s.role != Observer {
      CampaignEffect(s, a, s, env);
    }
  }

  lemma CheckEffect(s: Node, a: Action, env: Env)
    ensures Effect(s, a, Out(CheckBattery(s, env), []))
  {
    hide Effect;
    var s' := CheckBattery(s, env);
    RoleEffect(s, a, s'.role, s'.votedFor);
  }

  lemma RoleEffect(s: Node, a: Action, role: Role, votedFor: Option<NodeId>)
    requires role == s.role || role in {Follower, Observer}
    ensures Effect(s, a, Out(s.(role := role, votedFor := votedFor), []))
  {
  }

  lemma PartitionEffect(s: Node, a: Action, heal: bool)
    ensures Effect(s, a, Out(Handlers.HandlePartitionControl(s, heal), []))
  {
  }

  lemma FireEffect(s: Node, a: Action)
    requires a.LeafReport? ==> a.report.SensorData?
    ensures Effect(s, a, Fire(s, a))
  {
    hide Dispatch, Tick, HandleSensor, CheckBattery, Handlers.HandlePartitionControl, Effect;
    match a {
      case Deliver(_, _, _) => DeliverEffect(s, a);
      case TimerTick(_, env) => TickEffect(s, a, env);
      case BatteryCheck(_, env) => CheckEffect(s, a, env);
      case LeafReport(_, env, report) => SensorEffect(s, a, report, env);
      case PartitionControl(_, _, heal) => PartitionEffect(s, a, heal);
    }
  }

  lemma TermsGrow(s: Node, a: Action)
    requires a.LeafReport? ==> a.report.SensorData?
    ensures Fire(s, a).node.term >= s.term
  {
    hide Fire;
    FireEffect(s, a);
  }
}
