/** Where entries come from: what a packet carries when it is sent, and in which
    epoch an entry was created. */
module Provenance {
  import opened Types
  import opened Handlers
  import opened Clusters
  import opened Invariants
  import opened Ledger
  import Effects
  import Energy
  import Moves
  import Refinement
  import Safety

  // ----------------------------------------------------- what a step conveys

  /** The packet carries a log between `before` and `after`, or nothing. */
  predicate Conveyed(p: Payload, before: Log, after: Log)
    requires p.AppendEntries?
  {
    || Overshoot(p)
    || (|before| <= Covered(p) <= |after| && Carries(p, after[..Covered(p)]))
  }

  /** s created entry k in its term and epoch. */
  predicate CreatedBy(s: Node, log: Log, k: nat)
    requires k < |log|
  {
    log[k].index == k + 1 && log[k].term == s.term && log[k].epoch == s.epoch
  }

  predicate SameOrigin(s: Node, s': Node) {
    s'.id == s.id && s'.term == s.term && s'.epoch == s.epoch
  }

  /** The step only appends entries of its own, and each AppendEntries packet it
      sends carries the log as it was at some moment of the step. */
  ghost predicate Conveys(s: Node, o: Out) {
    && SameOrigin(s, o.node) && s.log <= o.node.log
    && (forall k :: |s.log| <= k < |o.node.log| ==> CreatedBy(s, o.node.log, k))
    && (forall m :: m in o.sent && m.payload.AppendEntries? ==>
          m.payload.leader == s.id && m.payload.term == s.term && Conveyed(m.payload, s.log, o.node.log))
  }

  /** The step sends no AppendEntries packet and appends nothing of its own. */
  ghost predicate Silent(s: Node, a: Action, o: Out) {
    && (forall m :: m in o.sent ==> !m.payload.AppendEntries?)
    && (TakesEntries(a) || o.node.log == s.log)
  }

  lemma ConveysTrans(s: Node, o1: Out, o2: Out)
    requires Conveys(s, o1) && Conveys(o1.node, o2)
    ensures Conveys(s, Out(o2.node, o1.sent + o2.sent))
  {
    var after := o2.node.log;
    forall k | |s.log| <= k < |after| ensures CreatedBy(s, after, k) {
      if k < |o1.node.log| { assert CreatedBy(s, o1.node.log, k); } else { assert CreatedBy(o1.node, after, k); }
    }
    forall m | m in o1.sent && m.payload.AppendEntries? ensures Conveyed(m.payload, s.log, after) {
      LaterConveyed(m.payload, s.log, o1.node.log, after);
    }
  }

  lemma LaterConveyed(p: Payload, before: Log, log: Log, after: Log)
    requires p.AppendEntries? && Conveyed(p, before, log) && log <= after
    ensures Conveyed(p, before, after)
  {
    if !Overshoot(p) { assert after[..Covered(p)] == log[..Covered(p)]; }
  }

  lemma NothingConveyed(s: Node, o: Out)
    requires SameOrigin(s, o.node) && o.node.log == s.log
    requires forall m :: m in o.sent ==> !m.payload.AppendEntries?
    ensures Conveys(s, o)
  {
  }

  lemma BeatsConvey(s: Node, s': Node)
    requires SameOrigin(s, s') && s'.log == s.log
    ensures Conveys(s, Out(s', Heartbeats(s)))
  {
    hide Heartbeats;
    Refinement.HeartbeatsReplicate(s);
    forall m | m in Heartbeats(s) ensures m.payload.AppendEntries? ==> Conveyed(m.payload, s.log, s.log) {
      assert Moves.Replicates(m, s);
      assert s.log[..|s.log|] == s.log;
    }
  }

  lemma ReplicateConveys(s: Node, command: Command, trigger: Trigger)
    ensures Conveys(s, Replicate(s, command, trigger))
  {
    hide Heartbeats, Conveyed;
    var s1 := Replicate(s, command, trigger).node;
    BeatsConvey(s1, s1);
    forall m | m in Heartbeats(s1) && m.payload.AppendEntries? ensures Conveyed(m.payload, s.log, s1.log) {
      EarlierConveyed(m.payload, s.log, s1.log);
    }
  }

  lemma EarlierConveyed(p: Payload, before: Log, log: Log)
    requires p.AppendEntries? && Conveyed(p, log, log) && before <= log
    ensures Conveyed(p, before, log)
  {
  }

  lemma {:induction false} ReplicateAllConveys(s: Node, proposals: seq<(Command, Trigger)>)
    ensures Conveys(s, ReplicateAll(s, proposals))
    decreases |proposals|
  {
    hide Replicate, Conveys;
    if proposals == [] {
      NothingConveyed(s, Out(s, []));
    } else {
      var first := Replicate(s, proposals[0].0, proposals[0].1);
      ReplicateConveys(s, proposals[0].0, proposals[0].1);
      ReplicateAllConveys(first.node, proposals[1..]);
      ConveysTrans(s, first, ReplicateAll(first.node, proposals[1..]));
    }
  }

  /** Only what a step starts from matters, not its other fields. */
  lemma ConveysFrom(s: Node, s1: Node, o: Out)
    requires SameOrigin(s, s1) && s1.log == s.log && Conveys(s1, o)
    ensures Conveys(s, o)
  {
    hide Conveyed;
    forall k | |s.log| <= k < |o.node.log| ensures CreatedBy(s, o.node.log, k) {
      assert CreatedBy(s1, o.node.log, k);
    }
  }

  lemma FlushPendingConveys(s: Node, env: Env)
    ensures Conveys(s, FlushPending(s, env))
  {
    hide Replicate, ReplicateAll, Conveys;
    var s1 := s.(pending := [], lastActivity := Later(env));
    if s.pending == [] {
      NothingConveyed(s, Out(s, []));
    } else if s.protocol == EchoD && |s.pending| > 1 {
      ReplicateConveys(s1, Batch(Commands(s.pending), |s.pending|), s.pending[0].1);
      ConveysFrom(s, s1, FlushPending(s, env));
    } else {
      ReplicateAllConveys(s1, s.pending);
      ConveysFrom(s, s1, FlushPending(s, env));
    }
  }

  lemma FlushBatchConveys(s: Node, env: Env)
    ensures Conveys(s, FlushBatch(s, env))
  {
    hide Replicate, Conveys;
    if s.batch == [] {
      NothingConveyed(s, FlushBatch(s, env));
    } else {
      var s1 := s.(batch := [], batchDeadline := None, lastActivity := env.now);
      ReplicateConveys(s1, if |s.batch| == 1 then s.batch[0] else Batch(s.batch, |s.batch|), Delta);
      ConveysFrom(s, s1, FlushBatch(s, env));
    }
  }

  lemma EnqueueConveys(s: Node, command: Command, env: Env)
    ensures Conveys(s, Enqueue(s, command, env))
  {
    hide FlushBatch, Conveys;
    var s1 := s.(batch := s.batch + [command],
                 batchDeadline := if s.batchDeadline == None then Some(env.now + BATCH_WINDOW) else s.batchDeadline);
    FlushBatchConveys(s1, env);
    NothingConveyed(s1, Out(s1, []));
    ConveysFrom(s, s1, Enqueue(s, command, env));
  }

  lemma PingConveys(s: Node)
    ensures Conveys(s, SendPing(s))
  {
    hide Conveyed;
    Effects.PingsProclaim(s);
    var sent := SendPing(s).sent;
    forall m | m in sent ensures !m.payload.AppendEntries? {
      var i :| 0 <= i < |sent| && sent[i] == m;
      assert m.payload == Ping(s);
    }
  }

  lemma PingIfDueConveys(s: Node, interval: real, env: Env)
    ensures Conveys(s, PingIfDue(s, interval, env))
  {
    hide SendPing, Heartbeats, Conveys;
    BeatsConvey(s, s.(lastPing := env.now));
    PingConveys(s);
    NothingConveyed(s, Out(s, []));
    Retouched(s, SendPing(s), SendPing(s).node.(lastPing := env.now));
  }

  lemma Retouched(s: Node, o: Out, s': Node)
    requires Conveys(s, o) && SameOrigin(o.node, s') && s'.log == o.node.log
    ensures Conveys(s, Out(s', o.sent))
  {
    hide Conveyed;
  }

  // --------------------------------------------------------------- handlers

  ghost predicate Carriage(s: Node, a: Action, o: Out) {
    Conveys(s, o) || Silent(s, a, o)
  }

  lemma SensorCarriage(s: Node, a: Action, p: Payload, env: Env)
    requires p.SensorData?
    ensures Carriage(s, a, HandleSensor(s, p, env))
  {
    hide Replicate, Enqueue, Filtered, SensorKey, Conveys;
    var s1 := s.(lastSensor := s.lastSensor[SensorKey(p) := p.value]);
    var o := HandleSensor(s, p, env);
    if Leads(s.role) {
      if s.protocol == Raft {
        ReplicateConveys(s, ReadingOf(p), Event);
      } else if !Filtered(s, p) {
        ReplicateConveys(s1, ReadingOf(p), Delta);
        EnqueueConveys(s1, ReadingOf(p), env);
        ConveysFrom(s, s1, o);
      }
    }
  }

  lemma ReconcileCarriage(s: Node, a: Action, p: Payload, env: Env)
    requires p.ReconcileBatch?
    ensures Carriage(s, a, HandleReconcile(s, p, env))
  {
    hide Replicate, ReplicateAll, Screen, Tagged, Conveys;
    var (window, unseen) := Screen(s.recent, p.commands);
    var s2 := s.(recent := Trim(window), lastActivity := env.now);
    if Leads(s.role) && p.commands != [] && unseen != [] {
      ReplicateConveys(s2, Batch(unseen, |unseen|), Reconcile);
      ReplicateAllConveys(s2, Tagged(unseen, Reconcile));
      ConveysFrom(s, s2, HandleReconcile(s, p, env));
    }
  }

  lemma OfficeConveys(s: Node, env: Env)
    ensures Conveys(s, BecomeLeader(s, env))
  {
    hide SetAll, FlushPending, SendPing, Heartbeats, Conveys;
    var s1 := AssumeOffice(s, env);
    var o1 := AssertLeadership(s1);
    BeatsConvey(s1, s1);
    PingConveys(s1);
    ConveysFrom(s, s1, o1);
    FlushPendingConveys(o1.node, env);
    ConveysTrans(s, o1, FlushPending(o1.node, env));
  }

  lemma ResponseCarriage(s: Node, a: Action, sender: NodeId, p: Payload, env: Env)
    requires p.VoteResponse?
    ensures Carriage(s, a, HandleVoteResponse(s, sender, p, env))
  {
    hide StepDown, BecomeLeader, Conveys;
    StepDownStill(s, p.term, env);
    var s1 := if p.granted then s.(votes := s.votes[sender := p.battery]) else s;
    OfficeConveys(s1, env);
    if p.term == s.term && s.role == Candidate && Majority(|s1.votes|, s1) {
      ConveysFrom(s, s1, BecomeLeader(s1, env));
    }
  }

  lemma RequestSilent(s: Node, a: Action, sender: NodeId, p: Payload, env: Env)
    requires p.RequestVote?
    ensures Silent(s, a, HandleRequestVote(s, sender, p, env))
  {
    hide HandleRequestVote;
    RequestVoteStill(s, sender, p, env);
    ResponseOnly(s, sender, p, env);
  }

  lemma ResponseOnly(s: Node, sender: NodeId, p: Payload, env: Env)
    requires p.RequestVote?
    ensures forall m :: m in HandleRequestVote(s, sender, p, env).sent ==> m.payload.VoteResponse?
  {
    hide StepDown, GrantsVote, NewElectionDeadline;
  }

  lemma CampaignSilent(s: Node, a: Action, s0: Node, env: Env)
    requires s0.log == s.log
    ensures Silent(s, a, StartElection(s0, env))
  {
    hide NewElectionDeadline;
    var o := StartElection(s0, env);
    forall m | m in o.sent ensures m.payload.RequestVote? {
      var i :| 0 <= i < |o.sent| && o.sent[i] == m;
      assert m.payload == VoteRequest(o.node, env);
    }
  }

  lemma AppendSilent(s: Node, a: Action)
    requires TakesEntries(a)
    ensures Silent(s, a, HandleAppendEntries(s, a.packet.src, a.packet.payload, a.env))
  {
    hide StepDown, AcceptOrReject;
    var p := a.packet.payload;
    Effects.AcceptEffect(if p.term > s.term then StepDown(s, p.term, a.env) else s, a.packet.src, p, a.env);
  }

  lemma HandoffSilent(s: Node, a: Action, p: Payload, env: Env)
    requires p.LeadershipHandoff?
    ensures Silent(s, a, HandleHandoff(s, p, env))
  {
    hide StepDown, StartElection;
    StepDownStill(s, p.term, env);
    CampaignSilent(s, a, s, env);
    CampaignSilent(s, a, StepDown(s, p.term, env), env);
  }

  lemma LeaderTickCarriage(s: Node, a: Action, env: Env)
    requires Leads(s.role)
    ensures Carriage(s, a, LeaderTick(s, env))
  {
    hide FlushIfDue, PingIfDue, HandoffIfLow, Conveys;
    PingIfDueConveys(s, RAFT_HEARTBEAT_INTERVAL, env);
    PingIfDueConveys(s, LIVENESS_PING_INTERVAL, env);
    var o1 := FlushIfDue(s, env);
    FlushIfDueConveys(s, env);
    PingIfDueConveys(o1.node, o1.node.pingInterval, env);
    var o2 := PingIfDue(o1.node, o1.node.pingInterval, env);
    HandoffConveys(o2.node, env);
    ConveysTrans(s, o1, o2);
    ConveysTrans(s, Out(o2.node, o1.sent + o2.sent), HandoffIfLow(o2.node, env));
  }

  lemma FlushIfDueConveys(s: Node, env: Env)
    ensures Conveys(s, FlushIfDue(s, env))
  {
    hide FlushBatch, Conveys;
    FlushBatchConveys(s, env);
    NothingConveyed(s, Out(s, []));
  }

  lemma HandoffConveys(s: Node, env: Env)
    ensures Conveys(s, HandoffIfLow(s, env))
  {
    hide Conveys, HandoffIfLow;
    HandoffIfLowStill(s, env);
    Effects.HandoffIfLowEffect(s, env);
    HandoffKeepsEpoch(s, env);
    NothingConveyed(s, HandoffIfLow(s, env));
  }

  lemma HandoffKeepsEpoch(s: Node, env: Env)
    ensures HandoffIfLow(s, env).node.epoch == s.epoch
  {
    hide Successor, NewElectionDeadline;
  }

  lemma DeliverCarriage(s: Node, a: Action)
    requires a.Deliver?
    ensures Carriage(s, a, Fire(s, a))
  {
    hide HandleRequestVote, HandleVoteResponse, HandleAppendEntries, HandleAppendResponse,
      HandlePing, HandleSensor, HandleHandoff, HandleReconcile, Conveys;
    var sender, p, env := a.packet.src, a.packet.payload, a.env;
    match p {
      case RequestVote(_, _, _, _, _) => RequestSilent(s, a, sender, p, env);
      case VoteResponse(_, _, _, _) => ResponseCarriage(s, a, sender, p, env);
      case AppendEntries(_, _, _, _, _, _) => AppendSilent(s, a);
      case AppendResponse(_, _, _, _, _, _) => AckStill(s, sender, p, env);
      case LivenessPing(_, _) => PingHeardStill(s, p, env);
      case SensorData(_, _, _) => SensorCarriage(s, a, p, env);
      case LeadershipHandoff(_, _) => HandoffSilent(s, a, p, env);
      case ReconcileBatch(_, _, _) => ReconcileCarriage(s, a, p, env);
    }
  }

  lemma TickCarriage(s: Node, a: Action, env: Env)
    ensures Carriage(s, a, Tick(s, env))
  {
    hide LeaderTick, StartElection, Conveys;
    if Leads(s.role) { LeaderTickCarriage(s, a, env); } else { CampaignSilent(s, a, s, env); }
  }

  lemma FireCarriage(s: Node, a: Action)
    requires a.LeafReport? ==> a.report.SensorData?
    ensures Carriage(s, a, Fire(s, a))
  {
    hide Dispatch, Tick, HandleSensor, CheckBattery, Handlers.HandlePartitionControl, Conveys;
    match a {
      case Deliver(_, _, _) => DeliverCarriage(s, a);
      case TimerTick(_, env) => TickCarriage(s, a, env);
      case LeafReport(_, env, report) => SensorCarriage(s, a, report, env);
      case BatteryCheck(_, env) => CheckStill(s, env);
      case PartitionControl(_, _, heal) => PartitionStill(s, heal);
    }
  }

  // ------------------------------------------------------------- send times

  /** The sender of m sent it in step i of the run, when its log lay between the
      logs before and after the step. */
  ghost predicate SentIn(run: seq<Cluster>, acts: seq<Action>, i: nat, m: Packet)
    requires IsRun(run, acts) && m.payload.AppendEntries?
  {
    && i < |acts| && acts[i].node == m.payload.leader
    && Enabled(run[i], acts[i]) && run[i + 1] == Apply(run[i], acts[i])
    && var l := m.payload.leader;
    && m in Fire(run[i].nodes[l], acts[i]).sent
    && run[i].nodes[l].term == m.payload.term
    && run[i].nodes[l].log <= run[i + 1].nodes[l].log
    && Conveyed(m.payload, run[i].nodes[l].log, run[i + 1].nodes[l].log)
  }

  lemma {:induction false} ConfiguredThroughout(run: seq<Cluster>, acts: seq<Action>)
    requires IsRun(run, acts)
    ensures Configured(run[|acts|])
    decreases |acts|
  {
    hide Fire, Enabled, Configured;
    if acts != [] {
      var last := |acts| - 1;
      Safety.PrefixIsRun(run, acts);
      ConfiguredThroughout(run[..last + 1], acts[..last]);
      assert run[..last + 1][last] == run[last];
      Energy.ConfiguredStays(run[last], acts[last]);
    }
  }

  /** Every AppendEntries packet was sent in some step. */
  lemma {:induction false} SentSometime(run: seq<Cluster>, acts: seq<Action>, m: Packet) returns (i: nat)
    requires IsRun(run, acts) && m in run[|acts|].msgs && m.payload.AppendEntries?
    ensures SentIn(run, acts, i, m)
    decreases |acts|
  {
    hide Fire, Enabled, Init, Conveyed;
    if acts == [] {
      NoPackets(run[0]);
      assert false;
    } else {
      var last := |acts| - 1;
      Safety.PrefixIsRun(run, acts);
      assert run[..last + 1][last] == run[last];
      if m in run[last].msgs {
        i := SentSometime(run[..last + 1], acts[..last], m);
        assert run[..last + 1][i] == run[i] && run[..last + 1][i + 1] == run[i + 1];
      } else {
        ConfiguredThroughout(run[..last + 1], acts[..last]);
        i := last;
        SentNow(run[last], acts[last], m);
      }
    }
  }

  lemma NoPackets(c: Cluster)
    requires Init(c)
    ensures c.msgs == {}
  {
  }

  lemma SentNow(c: Cluster, a: Action, m: Packet)
    requires Configured(c) && Enabled(c, a) && m in Fire(c.nodes[a.node], a).sent && m.payload.AppendEntries?
    ensures var s, s' := c.nodes[a.node], Apply(c, a).nodes[a.node];
      && m.payload.leader == a.node && s.term == m.payload.term && s.log <= s'.log && Conveyed(m.payload, s.log, s'.log)
  {
    hide Fire, Conveyed;
    assert ConfiguredNode(c, a.node);
    FireCarriage(c.nodes[a.node], a);
  }

  // ------------------------------------------------------------- provisional

  /** No entry carries an epoch. */
  ghost predicate Global(log: Log) {
    forall k :: 0 <= k < |log| ==> log[k].epoch == 0
  }

  /** The step creates an entry while its coordinator is in provisional mode. */
  predicate Provisions(c: Cluster, a: Action)
    requires Enabled(c, a)
  {
    c.nodes[a.node].epoch != 0 && Ledger.Created(c.nodes[a.node], a, Apply(c, a).nodes[a.node]) != []
  }

  ghost predicate AllGlobal(c: Cluster) {
    forall n :: n in c.nodes ==> Global(c.nodes[n].log)
  }

  ghost predicate GlobalPacket(m: Packet) {
    m.payload.AppendEntries? ==> Global(m.payload.entries)
  }

  ghost predicate PacketsGlobal(c: Cluster) {
    forall m :: m in c.msgs ==> GlobalPacket(m)
  }

  lemma {:induction false} StoredGlobal(s: Node, entries: Log)
    requires Global(s.log) && Global(entries)
    ensures Global(StoreAll(s, entries).node.log)
    decreases |entries|
  {
    if entries != [] { StoredGlobal(Store(s, entries[0]).node, entries[1..]); }
  }

  lemma AppendGlobal(s: Node, sender: NodeId, p: Payload, env: Env)
    requires p.AppendEntries? && Global(s.log) && Global(p.entries)
    ensures Global(HandleAppendEntries(s, sender, p, env).node.log)
  {
    hide StepDown, AcceptOrReject, Global;
    StepDownStill(s, p.term, env);
    AcceptGlobal(if p.term > s.term then StepDown(s, p.term, env) else s, sender, p, env);
  }

  lemma AcceptGlobal(s: Node, sender: NodeId, p: Payload, env: Env)
    requires p.AppendEntries? && Global(s.log) && Global(p.entries)
    ensures Global(AcceptOrReject(s, sender, p, env).node.log)
  {
    hide StoreAll, NewElectionDeadline, Global;
    StoredGlobal(ResetElectionTimer(s, env).(leader := Some(p.leader),
      role := if s.role == Candidate then Follower else s.role), p.entries);
  }

  /** Only a step that provisions makes a global log provisional. */
  lemma LogStaysGlobal(c: Cluster, a: Action)
    requires Enabled(c, a) && AllGlobal(c) && PacketsGlobal(c) && !Provisions(c, a)
    ensures Global(Apply(c, a).nodes[a.node].log)
  {
    hide Fire, Conveyed;
    var s, o := c.nodes[a.node], Fire(c.nodes[a.node], a);
    FireCarriage(s, a);
    if TakesEntries(a) {
      assert GlobalPacket(a.packet);
      TakenGlobal(s, a);
    } else if o.node.log != s.log {
      forall k | 0 <= k < |o.node.log| ensures o.node.log[k].epoch == 0 {
        if k >= |s.log| { assert CreatedBy(s, o.node.log, k); }
      }
    }
  }

  lemma TakenGlobal(s: Node, a: Action)
    requires TakesEntries(a) && Global(s.log) && Global(a.packet.payload.entries)
    ensures Global(Fire(s, a).node.log)
  {
    hide HandleAppendEntries;
    AppendGlobal(s, a.packet.src, a.packet.payload, a.env);
  }

  lemma SentGlobal(c: Cluster, a: Action, m: Packet)
    requires Enabled(c, a) && Global(Apply(c, a).nodes[a.node].log) && m in Fire(c.nodes[a.node], a).sent
    ensures GlobalPacket(m)
  {
    hide Fire;
    FireCarriage(c.nodes[a.node], a);
  }

  lemma GlobalStep(c: Cluster, a: Action)
    requires Enabled(c, a) && AllGlobal(c) && PacketsGlobal(c) && !Provisions(c, a)
    ensures AllGlobal(Apply(c, a)) && PacketsGlobal(Apply(c, a))
  {
    hide Fire, Global, GlobalPacket;
    LogStaysGlobal(c, a);
    forall m | m in Apply(c, a).msgs ensures GlobalPacket(m) {
      if m in Fire(c.nodes[a.node], a).sent { SentGlobal(c, a, m); }
    }
  }

  lemma ProvisionsLeavesTrace(c: Cluster, a: Action)
    requires Enabled(c, a) && Provisions(c, a)
    ensures !AllGlobal(Apply(c, a))
  {
    hide Fire, Conveyed;
    var s, log := c.nodes[a.node], Apply(c, a).nodes[a.node].log;
    FireCarriage(s, a);
    assert CreatedBy(s, log, |s.log|);
    assert a.node in Apply(c, a).nodes;
  }

  ghost predicate NeverProvisions(run: seq<Cluster>, acts: seq<Action>)
    requires EnabledAll(run, acts)
  {
    forall i :: 0 <= i < |acts| ==> Enabled(run[i], acts[i]) && !Provisions(run[i], acts[i])
  }

  lemma {:induction false} GlobalThroughout(run: seq<Cluster>, acts: seq<Action>, j: nat)
    requires IsRun(run, acts) && NeverProvisions(run, acts) && j < |run|
    ensures AllGlobal(run[j]) && PacketsGlobal(run[j])
    decreases j
  {
    hide Fire, Init, Enabled, AllGlobal, PacketsGlobal;
    if j == 0 {
      StartsGlobal(run[0]);
    } else {
      GlobalThroughout(run, acts, j - 1);
      assert run[j - 1 + 1] == Apply(run[j - 1], acts[j - 1]);
      GlobalStep(run[j - 1], acts[j - 1]);
    }
  }

  lemma StartsGlobal(c: Cluster)
    requires Init(c)
    ensures AllGlobal(c) && PacketsGlobal(c)
  {
    forall n | n in c.nodes ensures Global(c.nodes[n].log) {
      assert Booted(c.nodes[n]);
    }
  }

  /** No log ever holds a provisional entry if and only if no coordinator creates
      an entry while its partition epoch is not 0. */
  lemma ProvisionalExactly(run: seq<Cluster>, acts: seq<Action>)
    requires IsRun(run, acts)
    ensures (forall j :: 0 <= j < |run| ==> AllGlobal(run[j])) <==> NeverProvisions(run, acts)
  {
    hide Fire, Init, Enabled, AllGlobal, Provisions;
    if NeverProvisions(run, acts) {
      forall j | 0 <= j < |run| ensures AllGlobal(run[j]) {
        GlobalThroughout(run, acts, j);
      }
    } else {
      var i :| 0 <= i < |acts| && !(Enabled(run[i], acts[i]) && !Provisions(run[i], acts[i]));
      ProvisionsLeavesTrace(run[i], acts[i]);
      assert run[i + 1] == Apply(run[i], acts[i]);
    }
  }

  /** So while no coordinator does, no provisional entry is ever committed. */
  lemma NoProvisionalCommit(run: seq<Cluster>, acts: seq<Action>, j: nat, n: NodeId, k: nat)
    requires IsRun(run, acts) && NeverProvisions(run, acts) && j < |run| && n in run[j].nodes
    requires k < run[j].nodes[n].commit && k < |run[j].nodes[n].log|
    ensures run[j].nodes[n].log[k].epoch == 0
  {
    hide Fire, Init, Enabled;
    GlobalThroughout(run, acts, j);
    assert Global(run[j].nodes[n].log);
  }
}
