/** What steps do to the clocks of an election: a leader's pings and a follower's
    timer. */
module Pacing {
  import opened Types
  import opened Handlers
  import opened Clusters
  import Effects
  import Ledger
  import Refinement

  /** The longest and the shortest times that matter in each ping mode. */
  function Cap(p: Protocol): real { if p == EchoD then ECHOD_PING_MAX_INTERVAL else LIVENESS_PING_INTERVAL }

  function ShortestTimeout(p: Protocol): real {
    if p == EchoD then ECHOD_ELECTION_TIMEOUT_MIN else ELECTION_TIMEOUT_MIN
  }

  function Interval(s: Node): real { if s.protocol == EchoD then s.pingInterval else LIVENESS_PING_INTERVAL }

  predicate Due(s: Node, env: Env) {
    env.now - s.lastPing >= Interval(s)
  }

  /** The leader as far as its pings are concerned. */
  predicate Paces(s: Node) {
    s.protocol != Raft && Leads(s.role) && Ledger.PaceOk(s)
  }

  /** A node that has neither left the leader's term behind nor stands itself. */
  predicate Follows(s: Node, l: Node) {
    s.protocol == l.protocol && s.role in {Follower, Observer} && s.term <= l.term
  }

  /** The leader pinged p, by name or by broadcast. */
  ghost predicate Pinged(s: Node, sent: seq<Packet>, p: NodeId) {
    exists m :: m in sent && m.payload == Ping(s) && (m.dst == Everyone || m.dst == To(p))
  }

  ghost predicate PingsAll(s: Node, sent: seq<Packet>) {
    forall p :: p in s.peers ==> Pinged(s, sent, p)
  }

  /** A ping that is due goes to every peer, and the clock of pings is reset. */
  lemma LeaderTickPings(s: Node, env: Env)
    requires Paces(s)
    ensures var o := Tick(s, env);
      && o.node.lastPing == (if Due(s, env) then env.now else s.lastPing)
      && o.node.term == s.term && o.node.id == s.id && o.node.protocol == s.protocol
      && (Leads(o.node.role) ==> Paces(o.node))
      && (Due(s, env) ==> PingsAll(s, o.sent))
  {
    hide FlushIfDue, PingIfDue, HandoffIfLow, PingsAll;
    if s.protocol == EchoD {
      var o1 := FlushIfDue(s, env);
      FlushKeepsPings(s, env);
      PingIfDuePings(o1.node, o1.node.pingInterval, env);
      var o2 := PingIfDue(o1.node, o1.node.pingInterval, env);
      HandoffKeepsPings(o2.node, env);
      if Due(s, env) { MoreSent(s, o1.node, o1.sent, o2.sent, HandoffIfLow(o2.node, env).sent); }
    } else {
      PingIfDuePings(s, LIVENESS_PING_INTERVAL, env);
    }
  }

  lemma MoreSent(s: Node, s1: Node, before: seq<Packet>, sent: seq<Packet>, after: seq<Packet>)
    requires PingsAll(s1, sent) && SamePings(s, s1)
    ensures PingsAll(s, before + sent + after)
  {
    forall p | p in s.peers ensures Pinged(s, before + sent + after, p) {
      assert Pinged(s1, sent, p);
      var m :| m in sent && m.payload == Ping(s1) && (m.dst == Everyone || m.dst == To(p));
      assert m in before + sent + after;
    }
  }

  predicate SamePings(s: Node, s': Node) {
    s'.lastPing == s.lastPing && s'.pingInterval == s.pingInterval && s'.term == s.term && s'.id == s.id
    && s'.protocol == s.protocol && s'.peers == s.peers
  }

  /** An entry is created only with consensus activity. */
  predicate MarksActivity(s: Node, s': Node, now: real) {
    s'.lastActivity == now || (s'.lastActivity == s.lastActivity && s'.log == s.log)
  }

  lemma FlushKeepsPings(s: Node, env: Env)
    ensures SamePings(s, FlushIfDue(s, env).node) && FlushIfDue(s, env).node.role == s.role
    ensures MarksActivity(s, FlushIfDue(s, env).node, env.now)
  {
    hide FlushBatch;
    FlushBatchKeepsPings(s, env);
  }

  lemma FlushBatchKeepsPings(s: Node, env: Env)
    ensures SamePings(s, FlushBatch(s, env).node) && FlushBatch(s, env).node.role == s.role
    ensures FlushBatch(s, env).node.handoffSent == s.handoffSent
    ensures MarksActivity(s, FlushBatch(s, env).node, env.now)
  {
    hide Heartbeats;
  }

  lemma HandoffKeepsPings(s: Node, env: Env)
    ensures SamePings(s, HandoffIfLow(s, env).node)
  {
    hide Successor, NewElectionDeadline;
  }

  lemma PingIfDuePings(s: Node, interval: real, env: Env)
    requires Paces(s)
    ensures var o := PingIfDue(s, interval, env);
      && o.node.term == s.term && o.node.id == s.id && o.node.protocol == s.protocol && Paces(o.node)
      && (if env.now - s.lastPing >= interval then o.node.lastPing == env.now && PingsAll(s, o.sent)
          else o.node.lastPing == s.lastPing)
  {
    hide SendPing, PingsAll;
    PingsReach(s);
  }

  lemma PingsReach(s: Node)
    requires Paces(s)
    ensures var o := SendPing(s);
      o.node == s.(pingInterval := o.node.pingInterval) && Ledger.PaceOk(o.node) && PingsAll(s, o.sent)
  {
    var o := SendPing(s);
    forall p | p in s.peers ensures Pinged(s, o.sent, p) {
      var i :| 0 <= i < |s.peers| && s.peers[i] == p;
      assert s.protocol == EchoD ==> Pings(s)[i] in o.sent;
      assert s.protocol != EchoD ==> o.sent[0] in o.sent;
    }
  }

  /** Every timeout is at least the shortest, at any battery level. */
  lemma PingHeard(s: Node, l: Node, env: Env)
    requires Follows(s, l) && l.protocol != Raft
    ensures var s' := HandlePing(s, LivenessPing(l.term, l.id), env);
      Follows(s', l) && s'.electionDeadline >= env.now + ShortestTimeout(l.protocol)
  {
    hide StepDown;
    Refinement.StepDownShape(s, l.term, env);
    assert env.battery as real / 100.0 <= 1.0;
    assert (1.0 - env.battery as real / 100.0) * 2.4 >= 0.0;
  }

  // ------------------------------------------------------ steps of a leader

  /** The step leaves the ping clock alone, and marks every entry it creates as
      consensus activity. */
  predicate Paced(s: Node, a: Action, s': Node) {
    && SamePings(s, s') && s'.handoffSent == s.handoffSent
    && (s'.lastActivity == s.lastActivity || s'.lastActivity == a.env.now)
    && (s.protocol == EchoD && !Ledger.TakesEntries(a) && s'.log != s.log ==> s'.lastActivity == a.env.now)
  }

  predicate StaysLeader(s: Node, s': Node) {
    Leads(s'.role) && s'.term == s.term
  }

  lemma ReplicatePaced(s: Node, command: Command, trigger: Trigger)
    ensures var s' := Replicate(s, command, trigger).node;
      SamePings(s, s') && s'.role == s.role && s'.lastActivity == s.lastActivity && s'.handoffSent == s.handoffSent
  {
    hide Heartbeats;
  }

  lemma ReplicateAllPaced(s: Node, proposals: seq<(Command, Trigger)>)
    ensures var s' := ReplicateAll(s, proposals).node;
      SamePings(s, s') && s'.role == s.role && s'.lastActivity == s.lastActivity && s'.handoffSent == s.handoffSent
  {
    Ledger.ReplicateAllEntries(s, proposals);
  }

  lemma EnqueuePaced(s: Node, command: Command, env: Env)
    ensures var s' := Enqueue(s, command, env).node;
      && SamePings(s, s') && s'.role == s.role && s'.handoffSent == s.handoffSent
      && MarksActivity(s, s', env.now)
  {
    hide FlushBatch;
    FlushBatchKeepsPings(s.(batch := s.batch + [command],
      batchDeadline := if s.batchDeadline == None then Some(env.now + BATCH_WINDOW) else s.batchDeadline), env);
  }

  lemma SensorPaced(s: Node, a: Action, p: Payload, env: Env)
    requires p.SensorData? && Leads(s.role) && a.env == env
    ensures Paced(s, a, HandleSensor(s, p, env).node)
  {
    hide Replicate, Enqueue, Filtered, SensorKey;
    var s1 := s.(lastSensor := s.lastSensor[SensorKey(p) := p.value]);
    ReplicatePaced(s, ReadingOf(p), Event);
    ReplicatePaced(s1, ReadingOf(p), Delta);
    EnqueuePaced(s1, ReadingOf(p), env);
  }

  lemma ReconcilePaced(s: Node, a: Action, p: Payload, env: Env)
    requires p.ReconcileBatch? && a.env == env
    ensures Paced(s, a, HandleReconcile(s, p, env).node)
  {
    hide Replicate, ReplicateAll, Screen, Tagged;
    var (window, unseen) := Screen(s.recent, p.commands);
    var s2 := s.(recent := Trim(window), lastActivity := env.now);
    ReplicatePaced(s2, Batch(unseen, |unseen|), Reconcile);
    ReplicateAllPaced(s2, Tagged(unseen, Reconcile));
  }

  lemma AppendPaced(s: Node, a: Action)
    requires Ledger.TakesEntries(a) && StaysLeader(s, Fire(s, a).node)
    ensures Paced(s, a, Fire(s, a).node)
  {
    hide StepDown, AcceptOrReject;
    Ledger.StepDownStill(s, a.packet.payload.term, a.env);
    Effects.AcceptEffect(if a.packet.payload.term > s.term then StepDown(s, a.packet.payload.term, a.env) else s,
      a.packet.src, a.packet.payload, a.env);
    AcceptPaced(s, a.packet.src, a.packet.payload, a.env);
  }

  lemma AcceptPaced(s: Node, sender: NodeId, p: Payload, env: Env)
    requires p.AppendEntries?
    ensures var s' := AcceptOrReject(s, sender, p, env).node;
      SamePings(s, s') && s'.lastActivity == s.lastActivity && s'.handoffSent == s.handoffSent
  {
    hide StoreAll, NewElectionDeadline;
    Effects.StoreAllEffect(ResetElectionTimer(s, env).(leader := Some(p.leader),
      role := if s.role == Candidate then Follower else s.role), p.entries);
  }

  lemma AckPaced(s: Node, a: Action, sender: NodeId, p: Payload, env: Env)
    requires p.AppendResponse? && StaysLeader(s, HandleAppendResponse(s, sender, p, env))
    ensures Paced(s, a, HandleAppendResponse(s, sender, p, env))
  {
    hide StepDown, CommitPoint;
    Ledger.StepDownStill(s, p.term, env);
  }

  lemma RequestPaced(s: Node, a: Action, sender: NodeId, p: Payload, env: Env)
    requires p.RequestVote? && StaysLeader(s, HandleRequestVote(s, sender, p, env).node)
    ensures Paced(s, a, HandleRequestVote(s, sender, p, env).node)
  {
    hide StepDown, GrantsVote, NewElectionDeadline;
    Ledger.StepDownStill(s, p.term, env);
  }

  lemma ResponsePaced(s: Node, a: Action, sender: NodeId, p: Payload, env: Env)
    requires p.VoteResponse? && Leads(s.role) && StaysLeader(s, HandleVoteResponse(s, sender, p, env).node)
    ensures Paced(s, a, HandleVoteResponse(s, sender, p, env).node)
  {
    hide StepDown, BecomeLeader;
    Ledger.StepDownStill(s, p.term, env);
  }

  lemma PingPaced(s: Node, a: Action, p: Payload, env: Env)
    requires p.LivenessPing? && StaysLeader(s, HandlePing(s, p, env))
    ensures Paced(s, a, HandlePing(s, p, env))
  {
    hide StepDown, NewElectionDeadline;
    Ledger.StepDownStill(s, p.term, env);
  }

  lemma HandoffPaced(s: Node, a: Action, p: Payload, env: Env)
    requires p.LeadershipHandoff? && StaysLeader(s, HandleHandoff(s, p, env).node)
    ensures Paced(s, a, HandleHandoff(s, p, env).node)
  {
    hide StepDown, NewElectionDeadline;
    Ledger.StepDownStill(s, p.term, env);
  }

  lemma CheckPaced(s: Node, a: Action, env: Env)
    requires StaysLeader(s, CheckBattery(s, env))
    ensures Paced(s, a, CheckBattery(s, env))
  {
    if s.protocol == Raft || env.battery >= T_LOW {
      assert CheckBattery(s, env) == s || CheckBattery(s, env) == s.(role := Follower);
    }
  }

  lemma PartitionPaced(s: Node, a: Action, heal: bool)
    ensures Paced(s, a, Handlers.HandlePartitionControl(s, heal))
  {
  }

  /** Whatever a leader handles, if it leads its term afterwards its ping clock is
      as before. */
  lemma LeaderActs(s: Node, a: Action)
    requires a.LeafReport? ==> a.report.SensorData?
    requires Leads(s.role) && !a.TimerTick? && StaysLeader(s, Fire(s, a).node)
    ensures Paced(s, a, Fire(s, a).node)
  {
    hide Dispatch, HandleSensor, CheckBattery, Handlers.HandlePartitionControl, Paced;
    match a {
      case Deliver(_, _, _) => LeaderHandles(s, a);
      case LeafReport(_, env, report) => SensorPaced(s, a, report, env);
      case BatteryCheck(_, env) => CheckPaced(s, a, env);
      case PartitionControl(_, _, heal) => PartitionPaced(s, a, heal);
    }
  }

  lemma LeaderHandles(s: Node, a: Action)
    requires a.Deliver? && Leads(s.role) && StaysLeader(s, Fire(s, a).node)
    ensures Paced(s, a, Fire(s, a).node)
  {
    hide HandleRequestVote, HandleVoteResponse, HandleAppendEntries, HandleAppendResponse,
      HandlePing, HandleSensor, HandleHandoff, HandleReconcile, Paced;
    var sender, p, env := a.packet.src, a.packet.payload, a.env;
    match p {
      case RequestVote(_, _, _, _, _) => RequestPaced(s, a, sender, p, env);
      case VoteResponse(_, _, _, _) => ResponsePaced(s, a, sender, p, env);
      case AppendEntries(_, _, _, _, _, _) => AppendPaced(s, a);
      case AppendResponse(_, _, _, _, _, _) => AckPaced(s, a, sender, p, env);
      case LivenessPing(_, _) => PingPaced(s, a, p, env);
      case SensorData(_, _, _) => SensorPaced(s, a, p, env);
      case LeadershipHandoff(_, _) => HandoffPaced(s, a, p, env);
      case ReconcileBatch(_, _, _) => ReconcilePaced(s, a, p, env);
    }
  }

  // ---------------------------------------------------- steps of a follower

  /** The follower's timer is left alone or reset. */
  ghost predicate TimerKept(s: Node, s': Node, l: Node, now: real) {
    Follows(s', l) && (s'.electionDeadline == s.electionDeadline
    || s'.electionDeadline >= now + ShortestTimeout(l.protocol))
  }

  /** No message of a term above t, and no nomination. */
  predicate UpToTerm(t: nat, p: Payload) {
    match p
    case SensorData(_, _, _) => true
    case ReconcileBatch(_, _, _) => true
    case LeadershipHandoff(_, _) => false
    case AppendEntries(term, _, _, _, _, _) => term <= t
    case RequestVote(term, _, _, _, _) => term <= t
    case VoteResponse(term, _, _, _) => term <= t
    case AppendResponse(term, _, _, _, _, _) => term <= t
    case LivenessPing(term, _) => term <= t
  }

  lemma FreshDeadline(s: Node, env: Env)
    requires s.protocol != Raft
    ensures NewElectionDeadline(s, env) >= env.now + ShortestTimeout(s.protocol)
  {
    assert env.battery as real / 100.0 <= 1.0;
    assert (1.0 - env.battery as real / 100.0) * 2.4 >= 0.0;
  }

  lemma ReportKeepsTimer(s: Node, l: Node, p: Payload, env: Env)
    requires Follows(s, l) && p.SensorData?
    ensures TimerKept(s, HandleSensor(s, p, env).node, l, env.now)
  {
  }

  lemma StepDownTimer(s: Node, l: Node, t: nat, env: Env)
    requires Follows(s, l) && l.protocol != Raft && s.term < t <= l.term
    ensures TimerKept(s, StepDown(s, t, env), l, env.now)
  {
    hide NewElectionDeadline;
    FreshDeadline(s.(term := t, votedFor := None), env);
  }

  lemma AckKeepsTimer(s: Node, l: Node, m: Packet, env: Env)
    requires Follows(s, l) && l.protocol != Raft && m.payload.AppendResponse? && m.payload.term <= l.term
    ensures TimerKept(s, HandleAppendResponse(s, m.src, m.payload, env), l, env.now)
  {
    hide StepDown, CommitPoint;
    if m.payload.term > s.term { StepDownTimer(s, l, m.payload.term, env); }
  }

  lemma RequestKeepsTimer(s: Node, l: Node, m: Packet, env: Env)
    requires Follows(s, l) && l.protocol != Raft && m.payload.RequestVote? && m.payload.term <= l.term
    ensures TimerKept(s, HandleRequestVote(s, m.src, m.payload, env).node, l, env.now)
  {
    hide StepDown, NewElectionDeadline, GrantsVote;
    var p := m.payload;
    if p.term > s.term { StepDownTimer(s, l, p.term, env); }
    FreshDeadline((if p.term > s.term then StepDown(s, p.term, env) else s).(votedFor := Some(p.candidate)), env);
  }

  lemma AppendKeepsTimer(s: Node, l: Node, m: Packet, env: Env)
    requires Follows(s, l) && l.protocol != Raft && m.payload.AppendEntries? && m.payload.term <= l.term
    ensures TimerKept(s, HandleAppendEntries(s, m.src, m.payload, env).node, l, env.now)
  {
    hide StepDown, AcceptOrReject;
    var p := m.payload;
    var s1 := if p.term > s.term then StepDown(s, p.term, env) else s;
    if p.term > s.term { StepDownTimer(s, l, p.term, env); }
    AcceptResets(s1, m, env);
    FreshDeadline(s1, env);
  }

  lemma AcceptResets(s: Node, m: Packet, env: Env)
    requires m.payload.AppendEntries? && s.role in {Follower, Observer}
    ensures var s' := AcceptOrReject(s, m.src, m.payload, env).node;
      s'.electionDeadline == NewElectionDeadline(s, env) && s'.role == s.role && s'.term == s.term
      && s'.protocol == s.protocol
  {
    hide StoreAll, NewElectionDeadline;
    Effects.StoreAllEffect(ResetElectionTimer(s, env).(leader := Some(m.payload.leader),
      role := s.role), m.payload.entries);
  }

  lemma ResponseKeepsTimer(s: Node, l: Node, m: Packet, env: Env)
    requires Follows(s, l) && l.protocol != Raft && m.payload.VoteResponse? && m.payload.term <= l.term
    ensures TimerKept(s, HandleVoteResponse(s, m.src, m.payload, env).node, l, env.now)
  {
    hide StepDown, BecomeLeader;
    if m.payload.term > s.term { StepDownTimer(s, l, m.payload.term, env); }
  }

  lemma PingKeepsTimer(s: Node, l: Node, p: Payload, env: Env)
    requires Follows(s, l) && l.protocol != Raft && p.LivenessPing? && p.term <= l.term
    ensures TimerKept(s, HandlePing(s, p, env), l, env.now)
  {
    hide StepDown, NewElectionDeadline;
    if p.term > s.term { StepDownTimer(s, l, p.term, env); }
    FreshDeadline((if p.term > s.term then StepDown(s, p.term, env) else s).(leader := Some(p.leader)), env);
  }

  lemma FollowerHandles(s: Node, l: Node, m: Packet, env: Env)
    requires Follows(s, l) && l.protocol != Raft && UpToTerm(l.term, m.payload)
    ensures TimerKept(s, Dispatch(s, m.src, m.payload, env).node, l, env.now)
  {
    hide HandleSensor, HandleAppendEntries, HandleRequestVote, HandleAppendResponse, HandleVoteResponse, HandlePing;
    match m.payload {
      case SensorData(_, _, _) => ReportKeepsTimer(s, l, m.payload, env);
      case AppendEntries(_, _, _, _, _, _) => AppendKeepsTimer(s, l, m, env);
      case RequestVote(_, _, _, _, _) => RequestKeepsTimer(s, l, m, env);
      case VoteResponse(_, _, _, _) => ResponseKeepsTimer(s, l, m, env);
      case AppendResponse(_, _, _, _, _, _) => AckKeepsTimer(s, l, m, env);
      case LivenessPing(_, _) => PingKeepsTimer(s, l, m.payload, env);
      case ReconcileBatch(_, _, _) =>
    }
  }

  /** Whatever else a follower does, its timer is left alone or reset. */
  lemma FollowerActs(s: Node, l: Node, a: Action)
    requires a.LeafReport? ==> a.report.SensorData?
    requires Follows(s, l) && l.protocol != Raft && !a.TimerTick? && (a.Deliver? ==> UpToTerm(l.term, a.packet.payload))
    ensures TimerKept(s, Fire(s, a).node, l, a.env.now)
  {
    hide Dispatch, HandleSensor;
    match a {
      case Deliver(_, env, m) => FollowerHandles(s, l, m, env);
      case LeafReport(_, env, report) => ReportKeepsTimer(s, l, report, env);
      case BatteryCheck(_, _) =>
      case PartitionControl(_, _, _) =>
    }
  }
}
