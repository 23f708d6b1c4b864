/** The cluster: the coordinators, the packets ever sent and the steps. The set
    of packets never shrinks and any packet may be delivered any number of
    times or never, so loss, duplication, reordering and partitions of the
    network are all runs of this system. A node that takes no more steps has
    crashed. */
module Clusters {
  import opened Types
  import opened Handlers

  /** `voted` is a history variable: who has held a vote in which term. No
      handler reads it. */
  datatype Cluster = Cluster(
    protocol: Protocol, nodes: map<NodeId, Node>, msgs: set<Packet>, voted: set<(NodeId, nat)>)

  /** What can happen to one coordinator in one atomic step. */
  datatype Action =
    | Deliver(node: NodeId, env: Env, packet: Packet)
    | TimerTick(node: NodeId, env: Env)
    | BatteryCheck(node: NodeId, env: Env)
    | LeafReport(node: NodeId, env: Env, report: Payload)
    | PartitionControl(node: NodeId, env: Env, heal: bool)

  predicate Addressed(packet: Packet, n: NodeId) {
    packet.src != n && (packet.dst == Everyone || packet.dst == To(n))
  }

  predicate Enabled(c: Cluster, a: Action) {
    && a.node in c.nodes
    && (a.Deliver? ==> a.packet in c.msgs && Addressed(a.packet, a.node))
    && (a.LeafReport? ==> a.report.SensorData?)
  }

  function Fire(s: Node, a: Action): Out
    requires a.LeafReport? ==> a.report.SensorData?
  {
    match a
    case Deliver(_, env, packet) => Dispatch(s, packet.src, packet.payload, env)
    case TimerTick(_, env) => Tick(s, env)
    case BatteryCheck(_, env) => Out(CheckBattery(s, env), [])
    case LeafReport(_, env, report) => HandleSensor(s, report, env)
    case PartitionControl(_, _, heal) => Out(Handlers.HandlePartitionControl(s, heal), [])
  }

  function Ballot(n: NodeId, s: Node): set<(NodeId, nat)> {
    if s.votedFor.Some? then {(n, s.term)} else {}
  }

  function Apply(c: Cluster, a: Action): Cluster
    requires Enabled(c, a)
  {
    var o := Fire(c.nodes[a.node], a);
    c.(nodes := c.nodes[a.node := o.node],
       msgs := c.msgs + Elements(o.sent),
       voted := c.voted + Ballot(a.node, o.node))
  }

  /** The cluster after the step, if the step can be taken. */
  function Then(c: Cluster, a: Action): Cluster {
    if Enabled(c, a) then Apply(c, a) else c
  }

  /** A coordinator as its constructor leaves it; timers are arbitrary. */
  ghost predicate Booted(s: Node) {
    && s.role == Follower && s.term == 0 && s.votedFor == None && s.log == [] && s.commit == 0
    && s.votes == map[] && s.nextIndex == map[] && s.matchIndex == map[] && s.lastSensor == map[]
    && s.leader == None && s.pending == [] && s.epoch == 0 && s.batch == [] && s.batchDeadline == None
    && s.pingInterval == LIVENESS_PING_INTERVAL && s.peerBatteries == map[] && !s.handoffSent && s.recent == []
  }

  /** Every coordinator runs the same protocol and lists all others as peers. */
  ghost predicate Configured(c: Cluster) {
    forall n :: n in c.nodes ==> ConfiguredNode(c, n)
  }

  ghost predicate ConfiguredNode(c: Cluster, n: NodeId)
    requires n in c.nodes
  {
    var s := c.nodes[n];
    && s.id == n && s.protocol == c.protocol
    && Elements(s.peers) == c.nodes.Keys - {n}
    && |s.peers| + 1 == |c.nodes|
  }

  ghost predicate Init(c: Cluster) {
    && Configured(c)
    && (forall n :: n in c.nodes ==> Booted(c.nodes[n]))
    && c.msgs == {} && c.voted == {}
  }

  /** An OBSERVER that re-enters does so in a term in which it has not voted. In
      `raft` mode there is no gate and every step qualifies. */
  predicate FreshReentry(c: Cluster, a: Action)
    requires Enabled(c, a)
  {
    var s := c.nodes[a.node];
    a.BatteryCheck? && s.role == Observer && CheckBattery(s, a.env).role == Follower
    ==> (a.node, s.term) !in c.voted
  }

  /** A leader counts the success ack that the step delivers. */
  predicate CountsAck(c: Cluster, a: Action)
    requires Enabled(c, a)
  {
    && a.Deliver? && a.packet.payload.AppendResponse? && a.packet.payload.success
    && c.nodes[a.node].role == Leader && a.packet.payload.term <= c.nodes[a.node].term
  }

  /** An ack that a leader counts was issued in its current term. */
  predicate CurrentAck(c: Cluster, a: Action)
    requires Enabled(c, a)
  {
    CountsAck(c, a) ==> a.packet.payload.term == c.nodes[a.node].term
  }

  /** An ack that a leader counts reports no more than the acknowledged message
      covered. */
  predicate ExactAck(c: Cluster, a: Action)
    requires Enabled(c, a)
  {
    CountsAck(c, a) ==> a.packet.payload.matchIndex <= a.packet.payload.covered
  }

  predicate FaithfulAck(c: Cluster, a: Action)
    requires Enabled(c, a)
  {
    CurrentAck(c, a) && ExactAck(c, a)
  }

  /** The hypotheses a run is taken under. With `safe` false only re-entries are
      restricted, with `safe` true the acks are too. */
  predicate Admissible(c: Cluster, a: Action, safe: bool)
    requires Enabled(c, a)
  {
    FreshReentry(c, a) && (safe ==> FaithfulAck(c, a))
  }

  ghost predicate IsRun(run: seq<Cluster>, acts: seq<Action>) {
    && |run| == |acts| + 1
    && Init(run[0])
    && forall i :: 0 <= i < |acts| ==> Enabled(run[i], acts[i]) && run[i + 1] == Apply(run[i], acts[i])
  }

  ghost predicate AdmissibleRun(run: seq<Cluster>, acts: seq<Action>, safe: bool) {
    && IsRun(run, acts)
    && forall i :: 0 <= i < |acts| ==> Admissible(run[i], acts[i], safe)
  }
}
