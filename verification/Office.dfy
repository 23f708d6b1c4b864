/** What taking office brings about: the peers are told, and the triggers buffered
    while nobody led are replayed. Stated of whole steps, and of runs. */
module Office {
  import opened Types
  import opened Handlers
  import opened Clusters
  import opened Ledger
  import Duties
  import Effects
  import Leadership
  import Safety

  // ----------------------------------------------------------- taking office

  /** The entries the step added mean these commands, in order: one entry each in
      raft and echo, and in echod one batch, if there are several. */
  ghost predicate Replays(s: Node, s': Node, commands: seq<Command>) {
    && s.log <= s'.log
    && var created := s'.log[|s.log|..];
    && FlatAll(Recorded(created)) == FlatAll(commands)
    && Recorded(created) == (if s.protocol == EchoD && |commands| > 1 then [Batch(commands, |commands|)] else commands)
  }

  lemma FlushReplays(s: Node, env: Env)
    ensures var s' := FlushPending(s, env).node;
      && Replays(s, s', Commands(s.pending)) && s'.pending == []
      && s' == s.(pending := [], log := s'.log, lastActivity := s'.lastActivity)
  {
    hide Replicate, ReplicateAll, FlatAll;
    var s1 := s.(pending := [], lastActivity := Later(env));
    if s.pending == [] {
      assert Recorded([]) == Commands(s.pending) == [];
      assert s.log[|s.log|..] == [];
    } else if s.protocol == EchoD && |s.pending| > 1 {
      var whole := Batch(Commands(s.pending), |s.pending|);
      ReplicateBalanced(s1, whole, s.pending[0].1);
      OneBatch(Commands(s.pending), whole);
      assert (s.log + [NewEntry(s1, whole, s.pending[0].1)])[|s.log|..] == [NewEntry(s1, whole, s.pending[0].1)];
      assert Recorded([NewEntry(s1, whole, s.pending[0].1)]) == [whole];
    } else {
      ReplicateAllEntries(s1, s.pending);
      assert (s.log + NewEntries(s1, s.pending))[|s.log|..] == NewEntries(s1, s.pending);
      assert Recorded(NewEntries(s1, s.pending)) == Commands(s.pending);
    }
  }

  lemma OneBatch(commands: seq<Command>, whole: Command)
    requires whole == Batch(commands, |commands|)
    ensures FlatAll([whole]) == FlatAll(commands)
  {
    FlatOne(whole);
  }

  predicate Tells(s: Node, m: Packet, p: NodeId) {
    m.src == s.id && (m.dst == Everyone || m.dst == To(p)) && Effects.Speaks(m.payload, s.term, s.id)
  }

  /** Some packet of the step tells p who leads. */
  ghost predicate Told(s: Node, sent: seq<Packet>, p: NodeId) {
    exists m :: m in sent && Tells(s, m, p)
  }

  /** What taking office does to the node. */
  ghost predicate Inaugurated(s: Node, o: Out) {
    && o.node.role == Leader && o.node.leader == Some(s.id) && !o.node.handoffSent
    && o.node.pending == [] && Replays(s, o.node, Commands(s.pending))
    && (forall p :: p in s.peers ==> p in o.node.nextIndex && o.node.nextIndex[p] == |s.log| + 1)
    && (forall p :: p in s.peers ==> p in o.node.matchIndex && o.node.matchIndex[p] == 0)
    && (forall p :: p in s.peers ==> Told(o.node, o.sent, p))
  }

  lemma OfficeInaugurates(s: Node, env: Env)
    ensures Inaugurated(s, BecomeLeader(s, env))
  {
    hide SetAll, FlushPending, AssertLeadership, Replays, Told;
    var s1 := AssumeOffice(s, env);
    SetAllAt(s.nextIndex, s.peers, (|s.log| + 1) as pos);
    SetAllAt(s.matchIndex, s.peers, 0);
    var o1 := AssertLeadership(s1);
    Asserts(s1);
    FlushReplays(o1.node, env);
    SameReplays(s, o1.node, FlushPending(o1.node, env).node);
    forall p | p in s.peers ensures Told(BecomeLeader(s, env).node, BecomeLeader(s, env).sent, p) {
      ToldMore(o1.node, BecomeLeader(s, env).node, o1.sent, FlushPending(o1.node, env).sent, p);
    }
  }

  lemma SameReplays(s: Node, s1: Node, s': Node)
    requires s1.log == s.log && s1.protocol == s.protocol && s1.pending == s.pending
    requires Replays(s1, s', Commands(s1.pending))
    ensures Replays(s, s', Commands(s.pending))
  {
    hide FlatAll, Recorded;
  }

  lemma ToldMore(s: Node, s': Node, sent: seq<Packet>, more: seq<Packet>, p: NodeId)
    requires Told(s, sent, p) && s'.id == s.id && s'.term == s.term
    ensures Told(s', sent + more, p)
  {
    var m :| m in sent && Tells(s, m, p);
    assert m in sent + more;
  }

  lemma Asserts(s: Node)
    ensures var o := AssertLeadership(s);
      && o.node == s.(pingInterval := o.node.pingInterval)
      && forall p :: p in s.peers ==> Told(o.node, o.sent, p)
  {
    hide Heartbeats, SendPing;
    AssertsPings(s);
    Duties.BeatsReach(s);
    forall p | p in s.peers && s.protocol == Raft ensures Told(s, Heartbeats(s), p) {
      assert Duties.Reached(s, Heartbeats(s), p);
      var m :| m in Heartbeats(s) && Duties.Brings(s, m, p);
    }
  }

  lemma AssertsPings(s: Node)
    ensures var o := SendPing(s);
      && o.node == s.(pingInterval := o.node.pingInterval)
      && forall p :: p in s.peers ==> Told(o.node, o.sent, p)
  {
    var o := SendPing(s);
    forall p | p in s.peers ensures Told(o.node, o.sent, p) {
      var i :| 0 <= i < |s.peers| && s.peers[i] == p;
      var m := if s.protocol == EchoD then Pings(s)[i] else o.sent[0];
      assert m in o.sent && m.payload == Ping(s);
      assert Effects.Speaks(m.payload, o.node.term, o.node.id);
    }
  }

  /** The step that brings a node to office: it turns LEADER, starts each peer at
      the end of its log with nothing matched, tells every peer, and replays the
      buffered triggers, of which none is left. */
  lemma OfficeReplaysTriggers(s: Node, a: Action)
    requires a.LeafReport? ==> a.report.SensorData?
    requires !Leads(s.role) && Leads(Fire(s, a).node.role)
    ensures Inaugurated(s, Fire(s, a))
  {
    hide Dispatch, HandleSensor, LeaderTick, StartElection, CheckBattery, Handlers.HandlePartitionControl, Inaugurated;
    match a {
      case Deliver(_, _, _) => DeliveryInaugurates(s, a);
      case LeafReport(_, env, report) => ReportKeepsRole(s, report, env);
      case TimerTick(_, env) => CampaignRole(s, env);
      case BatteryCheck(_, env) => CheckRole(s, env);
      case PartitionControl(_, _, heal) => PartitionRole(s, heal);
    }
  }

  lemma ReportKeepsRole(s: Node, p: Payload, env: Env)
    requires p.SensorData? && !Leads(s.role)
    ensures HandleSensor(s, p, env).node.role == s.role
  {
  }

  lemma CampaignRole(s: Node, env: Env)
    ensures StartElection(s, env).node.role in {Candidate, Observer}
  {
    hide NewElectionDeadline;
  }

  lemma CheckRole(s: Node, env: Env)
    ensures CheckBattery(s, env).role == s.role || CheckBattery(s, env).role in {Follower, Observer}
  {
  }

  lemma PartitionRole(s: Node, heal: bool)
    ensures Leads(Handlers.HandlePartitionControl(s, heal).role) ==> Leads(s.role)
  {
  }

  lemma DeliveryInaugurates(s: Node, a: Action)
    requires a.Deliver? && !Leads(s.role) && Leads(Fire(s, a).node.role)
    ensures Inaugurated(s, Fire(s, a))
  {
    hide HandleRequestVote, HandleVoteResponse, HandleAppendEntries, HandleAppendResponse,
      HandlePing, HandleSensor, HandleHandoff, HandleReconcile, Inaugurated, Effects.Effect;
    var sender, p, env := a.packet.src, a.packet.payload, a.env;
    match p {
      case RequestVote(_, _, _, _, _) => NoOffice(s, a);
      case VoteResponse(_, _, _, _) => ResponseInaugurates(s, sender, p, env);
      case AppendEntries(_, _, _, _, _, _) => AppendRole(s, a);
      case AppendResponse(_, _, _, _, _, _) => AckRole(s, sender, p, env);
      case LivenessPing(_, _) => PingRole(s, p, env);
      case SensorData(_, _, _) => ReportKeepsRole(s, p, env);
      case LeadershipHandoff(_, _) => Leadership.NomineeCampaignsHigher(s, p, env);
      case ReconcileBatch(_, _, _) => ReconcileRole(s, p, env);
    }
  }

  lemma NoOffice(s: Node, a: Action)
    requires a.Deliver? && a.packet.payload.RequestVote? && !Leads(s.role)
    ensures !Leads(HandleRequestVote(s, a.packet.src, a.packet.payload, a.env).node.role)
  {
    hide StepDown, GrantsVote, NewElectionDeadline;
    StepDownStill(s, a.packet.payload.term, a.env);
  }

  lemma AppendRole(s: Node, a: Action)
    requires TakesEntries(a) && !Leads(s.role)
    ensures !Leads(HandleAppendEntries(s, a.packet.src, a.packet.payload, a.env).node.role)
  {
    hide StepDown, AcceptOrReject;
    var p := a.packet.payload;
    StepDownStill(s, p.term, a.env);
    Effects.AcceptEffect(if p.term > s.term then StepDown(s, p.term, a.env) else s, a.packet.src, p, a.env);
  }

  lemma AckRole(s: Node, sender: NodeId, p: Payload, env: Env)
    requires p.AppendResponse? && !Leads(s.role)
    ensures !Leads(HandleAppendResponse(s, sender, p, env).role)
  {
    hide StepDown, CommitPoint;
    StepDownStill(s, p.term, env);
  }

  lemma PingRole(s: Node, p: Payload, env: Env)
    requires p.LivenessPing? && !Leads(s.role)
    ensures !Leads(HandlePing(s, p, env).role)
  {
    hide StepDown, NewElectionDeadline;
    StepDownStill(s, p.term, env);
  }

  lemma ReconcileRole(s: Node, p: Payload, env: Env)
    requires p.ReconcileBatch? && !Leads(s.role)
    ensures HandleReconcile(s, p, env).node == s
  {
  }

  lemma ResponseInaugurates(s: Node, sender: NodeId, p: Payload, env: Env)
    requires p.VoteResponse? && !Leads(s.role) && Leads(HandleVoteResponse(s, sender, p, env).node.role)
    ensures Inaugurated(s, HandleVoteResponse(s, sender, p, env))
  {
    hide StepDown, BecomeLeader, Inaugurated;
    StepDownStill(s, p.term, env);
    var s1 := if p.granted then s.(votes := s.votes[sender := p.battery]) else s;
    OfficeInaugurates(s1, env);
    FromVotes(s, s1, BecomeLeader(s1, env));
  }

  lemma FromVotes(s: Node, s1: Node, o: Out)
    requires s1 == s.(votes := s1.votes) && Inaugurated(s1, o)
    ensures Inaugurated(s, o)
  {
    hide FlatAll, Recorded, Told;
  }

  // ---------------------------------------------- leaders hold nothing back

  predicate Flushed(s: Node) {
    Leads(s.role) ==> s.pending == []
  }

  lemma FlushedStep(s: Node, a: Action)
    requires a.LeafReport? ==> a.report.SensorData?
    requires Flushed(s)
    ensures Flushed(Fire(s, a).node)
  {
    hide Fire;
    if Leads(Fire(s, a).node.role) {
      if Leads(s.role) { LeaderAddsNothing(s, a); } else { OfficeReplaysTriggers(s, a); }
    }
  }

  lemma LeaderAddsNothing(s: Node, a: Action)
    requires a.LeafReport? ==> a.report.SensorData?
    requires Leads(s.role) && s.pending == [] && Leads(Fire(s, a).node.role)
    ensures Fire(s, a).node.pending == []
  {
    hide Dispatch, HandleSensor, LeaderTick, StartElection, CheckBattery, Handlers.HandlePartitionControl;
    match a {
      case Deliver(_, _, _) => LeaderHandlesPending(s, a);
      case LeafReport(_, env, report) => LeaderSensorPending(s, report, env);
      case TimerTick(_, env) => TickPending(s, env);
      case BatteryCheck(_, env) => CheckStill(s, env);
      case PartitionControl(_, _, heal) => PartitionStill(s, heal);
    }
  }

  lemma LeaderHandlesPending(s: Node, a: Action)
    requires a.Deliver? && Leads(s.role) && s.pending == []
    ensures Fire(s, a).node.pending == []
  {
    hide HandleRequestVote, HandleVoteResponse, HandleAppendEntries, HandleAppendResponse,
      HandlePing, HandleSensor, HandleHandoff, HandleReconcile;
    var sender, p, env := a.packet.src, a.packet.payload, a.env;
    match p {
      case RequestVote(_, _, _, _, _) => RequestVoteStill(s, sender, p, env);
      case VoteResponse(_, _, _, _) => ResponsePending(s, sender, p, env);
      case AppendEntries(_, _, _, _, _, _) => AppendStill(s, sender, p, env);
      case AppendResponse(_, _, _, _, _, _) => AckStill(s, sender, p, env);
      case LivenessPing(_, _) => PingHeardStill(s, p, env);
      case SensorData(_, _, _) => LeaderSensorPending(s, p, env);
      case LeadershipHandoff(_, _) => HandoffStill(s, p, env);
      case ReconcileBatch(_, _, _) => ReconcilePending(s, p, env);
    }
  }

  lemma ResponsePending(s: Node, sender: NodeId, p: Payload, env: Env)
    requires p.VoteResponse? && Leads(s.role)
    ensures HandleVoteResponse(s, sender, p, env).node.pending == s.pending
  {
    hide StepDown, BecomeLeader;
    StepDownStill(s, p.term, env);
  }

  lemma LeaderSensorPending(s: Node, p: Payload, env: Env)
    requires p.SensorData? && Leads(s.role)
    ensures HandleSensor(s, p, env).node.pending == s.pending
  {
    hide Heartbeats, Filtered, SensorKey;
  }

  lemma ReconcilePending(s: Node, p: Payload, env: Env)
    requires p.ReconcileBatch?
    ensures HandleReconcile(s, p, env).node.pending == s.pending
  {
    hide Heartbeats, ReplicateAll, Screen, Tagged;
    var (window, unseen) := Screen(s.recent, p.commands);
    ReplicateAllEntries(s.(recent := Trim(window), lastActivity := env.now), Tagged(unseen, Reconcile));
  }

  lemma TickPending(s: Node, env: Env)
    requires Leads(s.role)
    ensures LeaderTick(s, env).node.pending == s.pending
  {
    hide FlushBatch, PingIfDue, HandoffIfLow;
    FlushBatchPending(s, env);
    PingIfDueStill(s, RAFT_HEARTBEAT_INTERVAL, env);
    PingIfDueStill(s, LIVENESS_PING_INTERVAL, env);
    var s1 := FlushIfDue(s, env).node;
    PingIfDueStill(s1, s1.pingInterval, env);
    HandoffIfLowStill(PingIfDue(s1, s1.pingInterval, env).node, env);
  }

  lemma FlushBatchPending(s: Node, env: Env)
    ensures FlushBatch(s, env).node.pending == s.pending
  {
    hide Heartbeats;
  }

  /** In every reachable state a node that leads has no buffered trigger left. */
  lemma {:induction false} LeadersHoldNoTriggers(run: seq<Cluster>, acts: seq<Action>, n: NodeId)
    requires IsRun(run, acts) && n in run[0].nodes
    ensures n in run[|acts|].nodes
    ensures Leads(run[|acts|].nodes[n].role) ==> run[|acts|].nodes[n].pending == []
    decreases |acts|
  {
    hide Fire, Enabled, Init;
    if acts == [] {
      StartsHumble(run[0], n);
    } else {
      var last := |acts| - 1;
      Safety.PrefixIsRun(run, acts);
      LeadersHoldNoTriggers(run[..last + 1], acts[..last], n);
      assert run[..last + 1][last] == run[last] && run[..last + 1][0] == run[0];
      if acts[last].node == n { FlushedMove(run[last], acts[last]); }
    }
  }

  lemma FlushedMove(c: Cluster, a: Action)
    requires Enabled(c, a) && Flushed(c.nodes[a.node])
    ensures Flushed(Apply(c, a).nodes[a.node])
  {
    hide Fire;
    FlushedStep(c.nodes[a.node], a);
  }

  lemma StartsHumble(c: Cluster, n: NodeId)
    requires Init(c) && n in c.nodes
    ensures !Leads(c.nodes[n].role)
  {
    assert Booted(c.nodes[n]);
  }
}
