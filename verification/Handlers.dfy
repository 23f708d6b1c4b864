/** The handlers of rpi/coordinator/echo_node.py as pure functions: each takes
    the coordinator's state and returns its new state and the packets it sends.
    `Coordinator.EchoCoordinator` is the same code as methods that update
    fields, proved against these functions. */
module Handlers {
  import opened Types

  datatype Node = Node(
    id: NodeId, protocol: Protocol, peers: seq<NodeId>, tie: TieBreak,
    role: Role, term: nat, votedFor: Option<NodeId>, log: Log, commit: nat,
    votes: map<NodeId, Battery>, electionDeadline: real,
    nextIndex: map<NodeId, pos>, matchIndex: map<NodeId, nat>, lastPing: real,
    lastSensor: map<string, real>,
    leader: Option<NodeId>, pending: seq<(Command, Trigger)>, epoch: nat,
    batch: seq<Command>, batchDeadline: Option<real>,
    pingInterval: real, lastActivity: real,
    peerBatteries: map<NodeId, Battery>, handoffSent: bool,
    recent: seq<Command>)

  datatype Out = Out(node: Node, sent: seq<Packet>)

  // ---------------------------------------------------------------- timers

  function Later(env: Env): real { env.now + env.lag }

  function NewElectionDeadline(s: Node, env: Env): real {
    if s.protocol == EchoD then
      env.now + (ECHOD_ELECTION_TIMEOUT_MIN
                 + (1.0 - env.battery as real / 100.0) * (ECHOD_ELECTION_TIMEOUT_MAX - ECHOD_ELECTION_TIMEOUT_MIN)
                 + s.tie as real / 1000.0)
    else
      env.now + env.timeout
  }

  function ResetElectionTimer(s: Node, env: Env): Node {
    s.(electionDeadline := NewElectionDeadline(s, env))
  }

  // ------------------------------------------------------------ log helpers

  function LastTerm(log: Log): nat {
    if log == [] then 0 else log[|log| - 1].term
  }

  predicate UpToDate(log: Log, lastIndex: nat, lastTerm: nat) {
    if lastTerm != LastTerm(log) then lastTerm > LastTerm(log) else lastIndex >= |log|
  }

  predicate Majority(count: nat, s: Node) {
    count > (|s.peers| + 1) / 2
  }

  // --------------------------------------------------------- battery gating

  function CheckBattery(s: Node, env: Env): Node {
    if s.protocol == Raft then s
    else if env.battery < T_LOW && s.role != Observer then s.(role := Observer, votedFor := None)
    else if env.battery >= T_RESTORE && s.role == Observer then s.(role := Follower)
    else s
  }

  // ------------------------------------------------------------ replication

  function AppendTo(s: Node, peer: NodeId): Packet {
    var prev: nat := (Get(s.nextIndex, peer, 1) as int) - 1;
    Packet(s.id, To(peer), AppendEntries(
      s.term, s.id, prev,
      if 0 < prev <= |s.log| then s.log[prev - 1].term else 0,
      if prev <= |s.log| then s.log[prev..] else [],
      s.commit))
  }

  function Heartbeats(s: Node): seq<Packet> {
    seq(|s.peers|, i requires 0 <= i < |s.peers| => AppendTo(s, s.peers[i]))
  }

  function NewEntry(s: Node, command: Command, trigger: Trigger): LogEntry {
    LogEntry(|s.log| + 1, s.term, command, trigger, s.epoch)
  }

  function Replicate(s: Node, command: Command, trigger: Trigger): Out {
    var s1 := s.(log := s.log + [NewEntry(s, command, trigger)]);
    Out(s1, Heartbeats(s1))
  }

  function ReplicateAll(s: Node, proposals: seq<(Command, Trigger)>): Out
    decreases |proposals|
  {
    if proposals == [] then Out(s, [])
    else
      var first := Replicate(s, proposals[0].0, proposals[0].1);
      var rest := ReplicateAll(first.node, proposals[1..]);
      Out(rest.node, first.sent + rest.sent)
  }

  function Commands(proposals: seq<(Command, Trigger)>): seq<Command> {
    seq(|proposals|, i requires 0 <= i < |proposals| => proposals[i].0)
  }

  function FlushPending(s: Node, env: Env): Out {
    if s.pending == [] then Out(s, [])
    else
      var s1 := s.(pending := [], lastActivity := Later(env));
      if s.protocol == EchoD && |s.pending| > 1 then
        Replicate(s1, Batch(Commands(s.pending), |s.pending|), s.pending[0].1)
      else
        ReplicateAll(s1, s.pending)
  }

  function FlushBatch(s: Node, env: Env): Out {
    if s.batch == [] then Out(s.(batchDeadline := None), [])
    else
      Replicate(s.(batch := [], batchDeadline := None, lastActivity := env.now),
                if |s.batch| == 1 then s.batch[0] else Batch(s.batch, |s.batch|), Delta)
  }

  // --------------------------------------------------------------- liveness

  function Ping(s: Node): Payload { LivenessPing(s.term, s.id) }

  function Pings(s: Node): seq<Packet> {
    seq(|s.peers|, i requires 0 <= i < |s.peers| => Packet(s.id, To(s.peers[i]), Ping(s)))
  }

  function SendPing(s: Node): Out {
    if s.protocol == EchoD then
      Out(s.(pingInterval :=
               if s.lastActivity >= s.lastPing then LIVENESS_PING_INTERVAL
               else Min(s.pingInterval * LIVENESS_BACKOFF_FACTOR, ECHOD_PING_MAX_INTERVAL)),
          Pings(s))
    else
      Out(s, [Packet(s.id, Everyone, Ping(s))])
  }

  // --------------------------------------------------------------- election

  function StepDown(s: Node, term: nat, env: Env): Node {
    var s1 := s.(term := term, votedFor := None,
                 role := if s.role == Candidate || Leads(s.role) then Follower else s.role);
    if s1.role != Observer then ResetElectionTimer(s1, env) else s1
  }

  function VoteRequest(s: Node, env: Env): Payload {
    RequestVote(s.term, s.id, |s.log|, LastTerm(s.log), env.battery)
  }

  function VoteRequests(s: Node, env: Env): seq<Packet> {
    seq(|s.peers|, i requires 0 <= i < |s.peers| => Packet(s.id, To(s.peers[i]), VoteRequest(s, env)))
  }

  function StartElection(s: Node, env: Env): Out {
    if s.role == Observer then Out(s, [])
    else
      var s1 := ResetElectionTimer(
                  s.(term := s.term + 1, role := Candidate, votedFor := Some(s.id), leader := None,
                     votes := map[s.id := env.battery]), env);
      Out(s1, VoteRequests(s1, env))
  }

  function AssumeOffice(s: Node, env: Env): Node {
    s.(role := Leader, leader := Some(s.id),
       nextIndex := SetAll(s.nextIndex, s.peers, (|s.log| + 1) as pos),
       matchIndex := SetAll(s.matchIndex, s.peers, 0),
       handoffSent := false, pingInterval := LIVENESS_PING_INTERVAL,
       lastActivity := env.now, lastPing := Later(env))
  }

  function AssertLeadership(s: Node): Out {
    if s.protocol == Raft then Out(s, Heartbeats(s)) else SendPing(s)
  }

  function BecomeLeader(s: Node, env: Env): Out {
    var asserted := AssertLeadership(AssumeOffice(s, env));
    var flushed := FlushPending(asserted.node, env);
    Out(flushed.node, asserted.sent + flushed.sent)
  }

  predicate GrantsVote(s: Node, p: Payload)
    requires p.RequestVote?
  {
    && p.term == s.term
    && s.role != Observer
    && (s.protocol == Raft || p.battery >= T_LOW)
    && (s.votedFor == None || s.votedFor == Some(p.candidate))
    && UpToDate(s.log, p.lastIndex, p.lastTerm)
  }

  function HandleRequestVote(s: Node, sender: NodeId, p: Payload, env: Env): Out
    requires p.RequestVote?
  {
    var s1 := if p.term > s.term then StepDown(s, p.term, env) else s;
    var grant := GrantsVote(s1, p);
    var s2 := if grant then ResetElectionTimer(s1.(votedFor := Some(p.candidate)), env) else s1;
    Out(s2, [Packet(s.id, To(sender), VoteResponse(s2.term, grant, s.id, env.battery))])
  }

  function HandleVoteResponse(s: Node, sender: NodeId, p: Payload, env: Env): Out
    requires p.VoteResponse?
  {
    if p.term > s.term then Out(StepDown(s, p.term, env), [])
    else if s.role != Candidate || p.term != s.term then Out(s, [])
    else
      var s1 := if p.granted then s.(votes := s.votes[sender := p.battery]) else s;
      if Majority(|s1.votes|, s1) then BecomeLeader(s1, env) else Out(s1, [])
  }

  // ---------------------------------------------------------- AppendEntries

  function Rejection(s: Node, sender: NodeId, env: Env): Packet {
    Packet(s.id, To(sender), AppendResponse(s.term, false, s.id, 0, env.battery, 0))
  }

  function Provisional(truncated: Log): seq<Command> {
    if truncated == [] then []
    else (if truncated[0].epoch != 0 then [truncated[0].command] else []) + Provisional(truncated[1..])
  }

  function ReplayProvisional(s: Node, truncated: Log): seq<Packet> {
    var commands := Provisional(truncated);
    if commands == [] || s.protocol == Raft || s.leader == None || s.leader == Some(s.id) then []
    else [Packet(s.id, To(s.leader.value), ReconcileBatch(s.term, s.id, commands))]
  }

  function Store(s: Node, e: LogEntry): Out {
    if e.index <= |s.log| then
      if s.log[e.index - 1].term != e.term then
        Out(s.(log := s.log[..e.index - 1] + [e]), ReplayProvisional(s, s.log[e.index - 1..]))
      else Out(s, [])
    else Out(s.(log := s.log + [e]), [])
  }

  function StoreAll(s: Node, entries: Log): Out
    decreases |entries|
  {
    if entries == [] then Out(s, [])
    else
      var first := Store(s, entries[0]);
      var rest := StoreAll(first.node, entries[1..]);
      Out(rest.node, first.sent + rest.sent)
  }

  /** The consistency check on the entry before the new ones. */
  predicate PrevMatches(log: Log, prevIndex: nat, prevTerm: nat) {
    prevIndex > 0 ==> prevIndex <= |log| && log[prevIndex - 1].term == prevTerm
  }

  function Learn(s: Node, leaderCommit: nat): Node {
    if leaderCommit > s.commit then s.(commit := if leaderCommit <= |s.log| then leaderCommit else |s.log|) else s
  }

  /** The handler past the consistency check. */
  function AcceptEntries(s: Node, sender: NodeId, p: Payload, env: Env): Out
    requires p.AppendEntries?
  {
    var stored := StoreAll(s, p.entries);
    var s1 := Learn(stored.node, p.leaderCommit);
    Out(s1, stored.sent + [Packet(s.id, To(sender),
        AppendResponse(s1.term, true, s.id, |s1.log|, env.battery, p.prevIndex + |p.entries|))])
  }

  /** The handler past the term check. */
  function AcceptOrReject(s: Node, sender: NodeId, p: Payload, env: Env): Out
    requires p.AppendEntries?
  {
    var s1 := ResetElectionTimer(s, env).(leader := Some(p.leader),
                                          role := if s.role == Candidate then Follower else s.role);
    if !PrevMatches(s1.log, p.prevIndex, p.prevTerm) then Out(s1, [Rejection(s1, sender, env)])
    else AcceptEntries(s1, sender, p, env)
  }

  function HandleAppendEntries(s: Node, sender: NodeId, p: Payload, env: Env): Out
    requires p.AppendEntries?
  {
    var s1 := if p.term > s.term then StepDown(s, p.term, env) else s;
    if p.term < s1.term then Out(s1, [Rejection(s1, sender, env)])
    else AcceptOrReject(s1, sender, p, env)
  }

  function CountMatches(peers: seq<NodeId>, matchIndex: map<NodeId, nat>, n: nat): nat {
    if peers == [] then 0
    else CountMatches(peers[..|peers| - 1], matchIndex, n)
         + (if Get(matchIndex, peers[|peers| - 1], 0) >= n then 1 else 0)
  }

  predicate Committable(s: Node, n: nat)
    requires 1 <= n <= |s.log|
  {
    s.log[n - 1].term == s.term && Majority(1 + CountMatches(s.peers, s.matchIndex, n), s)
  }

  /** The downward scan of `_try_advance_commit`, from position `n`. */
  function CommitPoint(s: Node, n: nat): nat
    requires n <= |s.log|
  {
    if n <= s.commit then s.commit
    else if Committable(s, n) then n
    else CommitPoint(s, n - 1)
  }

  function AdvanceCommit(s: Node): Node {
    s.(commit := CommitPoint(s, |s.log|))
  }

  function HandleAppendResponse(s: Node, sender: NodeId, p: Payload, env: Env): Node
    requires p.AppendResponse?
  {
    if p.term > s.term then StepDown(s, p.term, env)
    else
      var s1 := s.(peerBatteries := s.peerBatteries[sender := p.battery]);
      if s.role != Leader then s1
      else if p.success then
        AdvanceCommit(s1.(nextIndex := s1.nextIndex[sender := (p.matchIndex + 1) as pos],
                          matchIndex := s1.matchIndex[sender := p.matchIndex]))
      else
        var next: nat := (Get(s1.nextIndex, sender, 1) as int) - 1;
        s1.(nextIndex := s1.nextIndex[sender := if next >= 1 then next else 1])
  }

  function HandlePing(s: Node, p: Payload, env: Env): Node
    requires p.LivenessPing?
  {
    if p.term < s.term then s
    else
      var s1 := if p.term > s.term then StepDown(s, p.term, env) else s;
      ResetElectionTimer(s1.(leader := Some(p.leader)), env)
  }

  // ---------------------------------------------------------------- sensors

  function SensorKey(p: Payload): string
    requires p.SensorData?
  {
    p.leaf + ":" + p.sensor
  }

  /** The change since the last accepted value is below the threshold. */
  predicate Filtered(s: Node, p: Payload)
    requires p.SensorData?
  {
    SensorKey(p) in s.lastSensor &&
    var prev := s.lastSensor[SensorKey(p)];
    Abs(p.value - prev) / Max(Abs(prev), 0.000000001) < DELTA_THRESHOLD
  }

  function ReadingOf(p: Payload): Command
    requires p.SensorData?
  {
    Reading(p.sensor, p.value, p.leaf)
  }

  function Enqueue(s: Node, command: Command, env: Env): Out {
    var s1 := s.(batch := s.batch + [command],
                 batchDeadline := if s.batchDeadline == None then Some(env.now + BATCH_WINDOW) else s.batchDeadline);
    if |s1.batch| >= MAX_BATCH_SIZE then FlushBatch(s1, env) else Out(s1, [])
  }

  function HandleSensor(s: Node, p: Payload, env: Env): Out
    requires p.SensorData?
  {
    if !Leads(s.role) then
      if s.leader != None && s.leader != Some(s.id) then Out(s, [Packet(s.id, To(s.leader.value), p)])
      else Out(s.(pending := s.pending + [(ReadingOf(p), Delta)]), [])
    else if s.protocol == Raft then Replicate(s, ReadingOf(p), Event)
    else if Filtered(s, p) then Out(s, [])
    else
      var s1 := s.(lastSensor := s.lastSensor[SensorKey(p) := p.value]);
      if s.protocol == EchoD then Enqueue(s1, ReadingOf(p), env)
      else Replicate(s1, ReadingOf(p), Delta)
  }

  // --------------------------------------------------------- reconciliation

  /** One message's pass over the window of recently replayed commands: the
      window with the unseen commands appended, and those commands. */
  function Screen(recent: seq<Command>, commands: seq<Command>): (seq<Command>, seq<Command>)
    decreases |commands|
  {
    if commands == [] then (recent, [])
    else if commands[0] in recent then Screen(recent, commands[1..])
    else
      var rest := Screen(recent + [commands[0]], commands[1..]);
      (rest.0, [commands[0]] + rest.1)
  }

  function Trim(recent: seq<Command>): seq<Command> {
    if |recent| > 200 then recent[100..] else recent
  }

  function Tagged(commands: seq<Command>, trigger: Trigger): seq<(Command, Trigger)> {
    seq(|commands|, i requires 0 <= i < |commands| => (commands[i], trigger))
  }

  function HandleReconcile(s: Node, p: Payload, env: Env): Out
    requires p.ReconcileBatch?
  {
    if !Leads(s.role) || p.commands == [] then Out(s, [])
    else
      var (window, unseen) := Screen(s.recent, p.commands);
      var s1 := s.(recent := Trim(window));
      if unseen == [] then Out(s1, [])
      else
        var s2 := s1.(lastActivity := env.now);
        if s.protocol == EchoD && |unseen| > 1 then Replicate(s2, Batch(unseen, |unseen|), Reconcile)
        else ReplicateAll(s2, Tagged(unseen, Reconcile))
  }

  // ---------------------------------------------------------------- handoff

  function BatteryOf(s: Node, peer: NodeId): Battery { Get(s.peerBatteries, peer, 100) }

  /** `a` comes before `b` in the order "highest battery first, then least name". */
  predicate Preferred(s: Node, a: NodeId, b: NodeId) {
    BatteryOf(s, a) > BatteryOf(s, b) || (BatteryOf(s, a) == BatteryOf(s, b) && a <= b)
  }

  /** The first element of the sorted candidate list. */
  function Successor(s: Node, peers: seq<NodeId>): NodeId
    requires peers != []
  {
    if |peers| == 1 then peers[0]
    else
      var best := Successor(s, peers[..|peers| - 1]);
      if Preferred(s, best, peers[|peers| - 1]) then best else peers[|peers| - 1]
  }

  function InitiateHandoff(s: Node, env: Env): Out {
    var s1 := s.(handoffSent := true);
    if s.peers == [] then Out(s1, [])
    else
      var successor := Successor(s, s.peers);
      if BatteryOf(s, successor) <= env.battery then Out(s1, [])
      else Out(ResetElectionTimer(s1.(role := Follower), env),
               [Packet(s.id, To(successor), LeadershipHandoff(s.term, s.id))])
  }

  function HandleHandoff(s: Node, p: Payload, env: Env): Out
    requires p.LeadershipHandoff?
  {
    if s.protocol != EchoD || s.role == Observer || p.term < s.term then Out(s, [])
    else StartElection(if p.term > s.term then StepDown(s, p.term, env) else s, env)
  }

  // ------------------------------------------------------- provisional mode

  function EnterProvisional(s: Node): Node {
    s.(epoch := s.epoch + 1, role := if s.role == Leader then LocalLeader else s.role)
  }

  function ExitProvisional(s: Node): Node {
    s.(epoch := 0, role := if s.role == LocalLeader then Follower else s.role)
  }

  function HandlePartitionControl(s: Node, heal: bool): Node {
    if s.protocol == Raft then s else if heal then ExitProvisional(s) else EnterProvisional(s)
  }

  // ------------------------------------------------------------------- tick

  function FlushIfDue(s: Node, env: Env): Out {
    if s.batchDeadline != None && env.now >= s.batchDeadline.value then FlushBatch(s, env) else Out(s, [])
  }

  function PingIfDue(s: Node, interval: real, env: Env): Out {
    if env.now - s.lastPing >= interval then
      var o := if s.protocol == Raft then Out(s, Heartbeats(s)) else SendPing(s);
      Out(o.node.(lastPing := env.now), o.sent)
    else Out(s, [])
  }

  function HandoffIfLow(s: Node, env: Env): Out {
    if env.battery < T_HANDOFF && !s.handoffSent then InitiateHandoff(s, env) else Out(s, [])
  }

  function LeaderTick(s: Node, env: Env): Out {
    match s.protocol
    case Raft => PingIfDue(s, RAFT_HEARTBEAT_INTERVAL, env)
    case Echo => PingIfDue(s, LIVENESS_PING_INTERVAL, env)
    case EchoD =>
      var o1 := FlushIfDue(s, env);
      var o2 := PingIfDue(o1.node, o1.node.pingInterval, env);
      var o3 := HandoffIfLow(o2.node, env);
      Out(o3.node, o1.sent + o2.sent + o3.sent)
  }

  function Tick(s: Node, env: Env): Out {
    if s.role == Observer then Out(s, [])
    else if Leads(s.role) then LeaderTick(s, env)
    else if env.now >= s.electionDeadline then StartElection(s, env)
    else Out(s, [])
  }

  // --------------------------------------------------------------- dispatch

  function Dispatch(s: Node, sender: NodeId, p: Payload, env: Env): Out {
    match p
    case RequestVote(_, _, _, _, _) => HandleRequestVote(s, sender, p, env)
    case VoteResponse(_, _, _, _) => HandleVoteResponse(s, sender, p, env)
    case AppendEntries(_, _, _, _, _, _) => HandleAppendEntries(s, sender, p, env)
    case AppendResponse(_, _, _, _, _, _) => Out(HandleAppendResponse(s, sender, p, env), [])
    case LivenessPing(_, _) => Out(HandlePing(s, p, env), [])
    case SensorData(_, _, _) => HandleSensor(s, p, env)
    case LeadershipHandoff(_, _) => HandleHandoff(s, p, env)
    case ReconcileBatch(_, _, _) => HandleReconcile(s, p, env)
  }
}
