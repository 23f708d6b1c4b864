/** How a leader hands its office over, and how provisional mode and the battery
    gate change roles. Stated of whole steps. */
module Handovers {
  import opened Types
  import opened Handlers
  import opened Clusters
  import opened Effects
  import Leadership
  import Pacing

  // ----------------------------------------------------------------- handoff

  /** The battery the node knows p to have; one it knows nothing of counts as
      full. */
  function Known(s: Node, p: NodeId): int {
    if p in s.peerBatteries then s.peerBatteries[p] else 100
  }

  /** q has the highest known battery of the peers, and the least name among
      equals. */
  predicate Best(s: Node, q: NodeId) {
    q in s.peers && forall p :: p in s.peers ==> Known(s, p) < Known(s, q) || (Known(s, p) == Known(s, q) && q <= p)
  }

  /** The packet hands the office of s to the best peer, one better charged than
      s itself. */
  predicate Nominates(s: Node, battery: Battery, m: Packet) {
    m.dst.To? && Best(s, m.dst.id) && Known(s, m.dst.id) > battery && m.payload == LeadershipHandoff(s.term, s.id)
  }

  predicate IsHandoff(m: Packet) {
    m.payload.LeadershipHandoff?
  }

  /** The node is an echoD leader that is low on battery and has not tried to hand
      over in this term. */
  predicate MayHandOver(s: Node, a: Action) {
    a.TimerTick? && s.protocol == EchoD && Leads(s.role) && a.env.battery < 20 && !s.handoffSent
  }

  /** What the tick's last part, the handoff, does to leader s. */
  ghost predicate HandsOver(s: Node, env: Env, o: Out) {
    && (forall m :: m in o.sent ==> IsHandoff(m) && Nominates(s, env.battery, m))
    && |o.sent| <= 1
    && (o.sent != [] ==> env.battery < 20 && !s.handoffSent && o.node.role == Follower)
    && (o.sent == [] ==> o.node.role == s.role)
    && o.node.handoffSent == (s.handoffSent || env.battery < 20)
    && (env.battery < 20 && !s.handoffSent && (exists p :: p in s.peers && Known(s, p) > env.battery) ==> o.sent != [])
  }

  lemma HandoffHandsOver(s: Node, env: Env)
    ensures HandsOver(s, env, HandoffIfLow(s, env))
  {
    hide Successor, NewElectionDeadline;
    if s.peers != [] {
      Leadership.SuccessorIsBest(s, s.peers);
      var q := Successor(s, s.peers);
      assert Best(s, q);
      forall p | p in s.peers && Known(s, p) > env.battery ensures Known(s, q) > env.battery {
      }
    }
  }

  /** Flushing and pinging send no handoff and change nothing it depends on. */
  predicate Preludes(s: Node, o: Out) {
    && o.node.id == s.id && o.node.term == s.term && o.node.role == s.role && o.node.peers == s.peers
    && o.node.peerBatteries == s.peerBatteries && o.node.handoffSent == s.handoffSent
    && forall m :: m in o.sent ==> !IsHandoff(m)
  }

  lemma FlushPreludes(s: Node, env: Env)
    ensures Preludes(s, FlushIfDue(s, env))
  {
    hide FlushBatch;
    FlushBatchProclaims(s, env);
    FlushBatchPlain(s, env);
  }

  lemma FlushBatchPlain(s: Node, env: Env)
    ensures var s' := FlushBatch(s, env).node;
      s'.peers == s.peers && s'.peerBatteries == s.peerBatteries && s'.handoffSent == s.handoffSent
  {
    hide Heartbeats;
  }

  lemma PingPreludes(s: Node, interval: real, env: Env)
    ensures Preludes(s, PingIfDue(s, interval, env))
  {
    hide SendPing, Heartbeats;
    PingIfDueProclaims(s, interval, env);
    SendPingPlain(s);
  }

  lemma SendPingPlain(s: Node)
    ensures SendPing(s).node == s.(pingInterval := SendPing(s).node.pingInterval)
  {
  }

  /** The handoffs among the packets a step sent. */
  function Handoffs(sent: seq<Packet>): seq<Packet> {
    if sent == [] then []
    else
      var k := |sent| - 1;
      Handoffs(sent[..k]) + (if IsHandoff(sent[k]) then [sent[k]] else [])
  }

  lemma {:induction false} NoHandoffs(sent: seq<Packet>)
    requires forall m :: m in sent ==> !IsHandoff(m)
    ensures Handoffs(sent) == []
  {
    if sent != [] { NoHandoffs(sent[..|sent| - 1]); }
  }

  lemma HandoffsOf(before: seq<Packet>, last: seq<Packet>)
    requires (forall m :: m in before ==> !IsHandoff(m)) && (forall m :: m in last ==> IsHandoff(m)) && |last| <= 1
    ensures Handoffs(before + last) == last
  {
    NoHandoffs(before);
    if last == [] {
      assert before + last == before;
    } else {
      assert (before + last)[..|before|] == before;
      assert last == [last[0]];
    }
  }

  lemma TickHandsOver(s: Node, env: Env)
    requires s.protocol == EchoD && Leads(s.role)
    ensures var o := LeaderTick(s, env);
      && HandsOver(s, env, Out(o.node, Handoffs(o.sent)))
  {
    hide FlushIfDue, PingIfDue, HandoffIfLow, HandsOver;
    var o1 := FlushIfDue(s, env);
    var o2 := PingIfDue(o1.node, o1.node.pingInterval, env);
    var o3 := HandoffIfLow(o2.node, env);
    FlushPreludes(s, env);
    PingPreludes(o1.node, o1.node.pingInterval, env);
    HandoffHandsOver(o2.node, env);
    OnlyHandoffs(o2.node, env, o3);
    HandoffsOf(o1.sent + o2.sent, o3.sent);
    SameHandsOver(s, o2.node, env, o3);
  }

  lemma OnlyHandoffs(s: Node, env: Env, o: Out)
    requires HandsOver(s, env, o)
    ensures (forall m :: m in o.sent ==> IsHandoff(m)) && |o.sent| <= 1
  {
  }

  lemma SameHandsOver(s: Node, s1: Node, env: Env, o: Out)
    requires HandsOver(s1, env, o)
    requires s1.id == s.id && s1.term == s.term && s1.role == s.role && s1.peers == s.peers
    requires s1.peerBatteries == s.peerBatteries && s1.handoffSent == s.handoffSent
    ensures HandsOver(s, env, o)
  {
    assert forall p :: Known(s1, p) == Known(s, p);
    forall m | m in o.sent ensures Nominates(s, env.battery, m) {
      assert Nominates(s1, env.battery, m);
    }
  }

  /** Handoff, over all steps. One is sent only by the tick of an echoD leader
      below 20 percent that has not tried in this term; then it is one packet, to
      the best peer, which has more battery than the leader, who becomes FOLLOWER.
      And one is sent whenever such a leader knows of a better charged peer. */
  lemma HandoffGoesToBest(s: Node, a: Action)
    requires a.LeafReport? ==> a.report.SensorData?
    ensures var o := Fire(s, a);
      && |Handoffs(o.sent)| <= 1
      && (forall m :: m in Handoffs(o.sent) ==>
            MayHandOver(s, a) && Nominates(s, a.env.battery, m) && o.node.role == Follower)
      && (MayHandOver(s, a) && (exists p :: p in s.peers && Known(s, p) > a.env.battery) ==> |Handoffs(o.sent)| == 1)
  {
    hide Fire, HandsOver;
    if a.TimerTick? && s.protocol == EchoD && Leads(s.role) {
      TickIsLeaders(s, a);
      TickHandsOver(s, a.env);
      HandsOverParts(s, a.env, Out(Fire(s, a).node, Handoffs(Fire(s, a).sent)));
    } else {
      NoOtherHandoff(s, a);
      NoHandoffs(Fire(s, a).sent);
    }
  }

  lemma TickIsLeaders(s: Node, a: Action)
    requires a.TimerTick? && Leads(s.role)
    ensures Fire(s, a) == LeaderTick(s, a.env)
  {
    hide LeaderTick;
  }

  lemma HandsOverParts(s: Node, env: Env, o: Out)
    requires HandsOver(s, env, o)
    ensures |o.sent| <= 1
    ensures forall m :: m in o.sent ==>
      env.battery < 20 && !s.handoffSent && Nominates(s, env.battery, m) && o.node.role == Follower
    ensures env.battery < 20 && !s.handoffSent && (exists p :: p in s.peers && Known(s, p) > env.battery) ==>
      |o.sent| == 1
  {
  }

  lemma NoOtherHandoff(s: Node, a: Action)
    requires a.LeafReport? ==> a.report.SensorData?
    requires !(a.TimerTick? && s.protocol == EchoD && Leads(s.role))
    ensures forall m :: m in Fire(s, a).sent ==> !IsHandoff(m)
  {
    hide Dispatch, HandleSensor, LeaderTick, StartElection;
    match a {
      case Deliver(_, _, _) => DeliveriesHandNothing(s, a);
      case LeafReport(_, env, report) => SensorHandsNothing(s, report, env);
      case TimerTick(_, env) => OtherTicksHandNothing(s, env);
      case _ =>
    }
  }

  lemma SensorHandsNothing(s: Node, p: Payload, env: Env)
    requires p.SensorData?
    ensures forall m :: m in HandleSensor(s, p, env).sent ==> !IsHandoff(m)
  {
    hide Replicate, Enqueue, Filtered, SensorKey;
    if Leads(s.role) { SensorProclaims(s, p, env); }
  }

  lemma OtherTicksHandNothing(s: Node, env: Env)
    requires !(s.protocol == EchoD && Leads(s.role))
    ensures forall m :: m in Tick(s, env).sent ==> !IsHandoff(m)
  {
    hide StartElection, PingIfDue;
    if Leads(s.role) {
      PingIfDueProclaims(s, RAFT_HEARTBEAT_INTERVAL, env);
      PingIfDueProclaims(s, LIVENESS_PING_INTERVAL, env);
    } else {
      CampaignHandsNothing(s, env);
    }
  }

  lemma CampaignHandsNothing(s: Node, env: Env)
    ensures forall m :: m in StartElection(s, env).sent ==> m.payload.RequestVote?
  {
    hide NewElectionDeadline;
    var o := StartElection(s, env);
    forall m | m in o.sent ensures m.payload.RequestVote? {
      var i :| 0 <= i < |o.sent| && o.sent[i] == m;
      assert m.payload == VoteRequest(o.node, env);
    }
  }

  lemma DeliveriesHandNothing(s: Node, a: Action)
    requires a.Deliver?
    ensures forall m :: m in Fire(s, a).sent ==> !IsHandoff(m)
  {
    hide HandleRequestVote, HandleVoteResponse, HandleAppendEntries, HandleAppendResponse,
      HandlePing, HandleSensor, HandleHandoff, HandleReconcile, Effect;
    var sender, p, env := a.packet.src, a.packet.payload, a.env;
    match p {
      case RequestVote(_, _, _, _, _) => VotesHandNothing(s, sender, p, env);
      case VoteResponse(_, _, _, _) => ResponsesHandNothing(s, sender, p, env);
      case AppendEntries(_, _, _, _, _, _) => AppendsHandNothing(s, sender, p, env);
      case SensorData(_, _, _) => SensorHandsNothing(s, p, env);
      case LeadershipHandoff(_, _) => NomineesHandNothing(s, p, env);
      case ReconcileBatch(_, _, _) => ReconcilesHandNothing(s, p, env);
      case _ =>
    }
  }

  lemma VotesHandNothing(s: Node, sender: NodeId, p: Payload, env: Env)
    requires p.RequestVote?
    ensures forall m :: m in HandleRequestVote(s, sender, p, env).sent ==> m.payload.VoteResponse?
  {
    hide StepDown, GrantsVote, NewElectionDeadline;
  }

  lemma ResponsesHandNothing(s: Node, sender: NodeId, p: Payload, env: Env)
    requires p.VoteResponse?
    ensures forall m :: m in HandleVoteResponse(s, sender, p, env).sent ==> !IsHandoff(m)
  {
    hide StepDown, BecomeLeader, FlushPending, AssertLeadership;
    var s1 := if p.granted then s.(votes := s.votes[sender := p.battery]) else s;
    OfficeHandsNothing(s1, env);
  }

  lemma OfficeHandsNothing(s: Node, env: Env)
    ensures forall m :: m in BecomeLeader(s, env).sent ==> !IsHandoff(m)
  {
    hide SetAll, FlushPending, SendPing, Heartbeats;
    var s1 := AssumeOffice(s, env);
    HeartbeatsProclaim(s1);
    PingsProclaim(s1);
    FlushPendingProclaims(AssertLeadership(s1).node, env);
  }

  lemma AppendsHandNothing(s: Node, sender: NodeId, p: Payload, env: Env)
    requires p.AppendEntries?
    ensures forall m :: m in HandleAppendEntries(s, sender, p, env).sent ==> !IsHandoff(m)
  {
    hide StepDown, AcceptOrReject;
    AcceptEffect(if p.term > s.term then StepDown(s, p.term, env) else s, sender, p, env);
  }

  lemma NomineesHandNothing(s: Node, p: Payload, env: Env)
    requires p.LeadershipHandoff?
    ensures forall m :: m in HandleHandoff(s, p, env).sent ==> !IsHandoff(m)
  {
    hide StepDown, StartElection;
    CampaignHandsNothing(s, env);
    CampaignHandsNothing(StepDown(s, p.term, env), env);
  }

  lemma ReconcilesHandNothing(s: Node, p: Payload, env: Env)
    requires p.ReconcileBatch?
    ensures forall m :: m in HandleReconcile(s, p, env).sent ==> !IsHandoff(m)
  {
    hide Replicate, ReplicateAll, Screen, Tagged;
    ReconcileProclaims(s, p, env);
  }

  /** The mark that a leader has tried is cleared on taking office
      (`Office.OfficeReplaysTriggers`) and set, while it leads, only by a tick of
      echoD below 20 percent. */
  lemma HandoffTriedOnce(s: Node, a: Action)
    requires a.LeafReport? ==> a.report.SensorData?
    requires Leads(s.role) && Leads(Fire(s, a).node.role) && Fire(s, a).node.term == s.term
    ensures Fire(s, a).node.handoffSent <==>
      s.handoffSent || (a.TimerTick? && s.protocol == EchoD && a.env.battery < 20)
  {
    hide Fire, HandsOver;
    if a.TimerTick? {
      TickIsLeaders(s, a);
      if s.protocol == EchoD {
        TickHandsOver(s, a.env);
        HandsOverMark(s, a.env, Out(Fire(s, a).node, Handoffs(Fire(s, a).sent)));
      } else {
        PlainTickMark(s, a.env);
      }
    } else {
      Pacing.LeaderActs(s, a);
    }
  }

  lemma HandsOverMark(s: Node, env: Env, o: Out)
    requires HandsOver(s, env, o)
    ensures o.node.handoffSent == (s.handoffSent || env.battery < 20)
  {
  }

  lemma PlainTickMark(s: Node, env: Env)
    requires s.protocol != EchoD
    ensures LeaderTick(s, env).node.handoffSent == s.handoffSent
  {
    hide PingIfDue;
    PingPreludes(s, RAFT_HEARTBEAT_INTERVAL, env);
    PingPreludes(s, LIVENESS_PING_INTERVAL, env);
  }

  // ------------------------------------------------------- provisional mode

  /** A partition opens a new epoch and turns a LEADER, and nobody else, into a
      LOCAL_LEADER; a heal ends all epochs and leaves no LOCAL_LEADER. raft knows
      neither. */
  lemma ProvisionalMode(s: Node, a: Action)
    requires a.PartitionControl?
    ensures var s' := Fire(s, a).node;
      && Fire(s, a).sent == [] && s' == s.(role := s'.role, epoch := s'.epoch)
      && (s.protocol == Raft ==> s' == s)
      && (s.protocol != Raft && !a.heal ==>
            && s'.epoch > s.epoch && s'.role != Leader
            && (s.role == Leader ==> s'.role == LocalLeader) && (s.role != Leader ==> s'.role == s.role))
      && (s.protocol != Raft && a.heal ==>
            && s'.epoch == 0 && s'.role != LocalLeader
            && (s.role == LocalLeader ==> s'.role == Follower) && (s.role != LocalLeader ==> s'.role == s.role))
  {
  }

  /** The battery gate of echo and echod: after the check a node is OBSERVER
      exactly if its battery is below 15 percent, or it was OBSERVER and is below
      25; who leaves OBSERVER is FOLLOWER, who enters it forgets its vote, and
      nothing else changes. raft has no gate. */
  lemma BatteryGate(s: Node, a: Action)
    requires a.BatteryCheck?
    ensures var s' := Fire(s, a).node;
      && Fire(s, a).sent == [] && s' == s.(role := s'.role, votedFor := s'.votedFor)
      && (s.protocol == Raft ==> s' == s)
      && (s.protocol != Raft ==>
            && (s'.role == Observer <==> a.env.battery < 15 || (s.role == Observer && a.env.battery < 25))
            && (s.role == Observer && s'.role != Observer ==> s'.role == Follower)
            && (s.role != Observer && s'.role != Observer ==> s'.role == s.role)
            && s'.votedFor == (if s.role != Observer && s'.role == Observer then None else s.votedFor))
  {
  }
}
