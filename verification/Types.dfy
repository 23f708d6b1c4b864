/** The data of the coordinator: commands, log entries, messages and the
    configuration constants of rpi/config.py. */
module Types {
  datatype Option<+T> = None | Some(value: T)

  /** Coordinator names. The source uses strings; only equality and the order
      used to break ties between successors matter, so numbers stand for them. */
  type NodeId = nat

  /** Log positions and `next_index` values are 1-based. */
  type pos = n: nat | 1 <= n witness 1

  /** `read_level()` returns an integer percentage. */
  type Battery = b: int | 0 <= b <= 100 witness 100

  /** `crc32(node_id) % 150`, in milliseconds. */
  type TieBreak = t: nat | t < 150

  datatype Protocol = Raft | Echo | EchoD

  datatype Role = Follower | Candidate | Leader | Observer | LocalLeader

  predicate Leads(r: Role) {
    r == Leader || r == LocalLeader
  }

  datatype Trigger = Delta | Event | Reconcile

  /** A single reading, or a batch of commands; batches nest when a batch entry
      is truncated and reconciled. */
  datatype Command =
    | Reading(sensor: string, value: real, leaf: string)
    | Batch(commands: seq<Command>, count: nat)

  datatype LogEntry = LogEntry(index: pos, term: nat, command: Command, trigger: Trigger, epoch: nat)

  type Log = seq<LogEntry>

  /** Message payloads. `covered` is a history field: the index of the last
      entry that the acknowledged message carried. No handler reads it. */
  datatype Payload =
    | RequestVote(term: nat, candidate: NodeId, lastIndex: nat, lastTerm: nat, battery: Battery)
    | VoteResponse(term: nat, granted: bool, voter: NodeId, battery: Battery)
    | AppendEntries(term: nat, leader: NodeId, prevIndex: nat, prevTerm: nat, entries: Log, leaderCommit: nat)
    | AppendResponse(term: nat, success: bool, responder: NodeId, matchIndex: nat, battery: Battery, covered: nat)
    | LivenessPing(term: nat, leader: NodeId)
    | SensorData(sensor: string, value: real, leaf: string)
    | LeadershipHandoff(term: nat, leader: NodeId)
    | ReconcileBatch(term: nat, senderNode: NodeId, commands: seq<Command>)

  datatype Destination = To(id: NodeId) | Everyone

  datatype Packet = Packet(src: NodeId, dst: Destination, payload: Payload)

  const ELECTION_TIMEOUT_MIN := 1.2
  const ELECTION_TIMEOUT_MAX := 2.4
  const LIVENESS_PING_INTERVAL := 0.25
  const T_LOW := 15
  const T_RESTORE := 25
  const T_HANDOFF := 20
  const DELTA_THRESHOLD := 0.05
  const RAFT_HEARTBEAT_INTERVAL := 0.25
  const BATCH_WINDOW := 0.05
  const MAX_BATCH_SIZE := 10
  const ECHOD_PING_MAX_INTERVAL := 1.0
  const LIVENESS_BACKOFF_FACTOR := 2.0
  const ECHOD_ELECTION_TIMEOUT_MIN := 2.4
  const ECHOD_ELECTION_TIMEOUT_MAX := 4.8

  /** What `random.uniform(ELECTION_TIMEOUT_MIN, ELECTION_TIMEOUT_MAX)` may return. */
  type RandomTimeout = r: real | 1.2 <= r <= 2.4 witness 1.2

  type Delay = r: real | 0.0 <= r witness 0.0

  /** What one handler or tick reads from outside: the clock, a second and later
      reading of it (`now + lag`), the battery and the random timeout. */
  datatype Env = Env(now: real, lag: Delay, battery: Battery, timeout: RandomTimeout)

  function Get<T>(m: map<NodeId, T>, k: NodeId, default: T): T {
    if k in m then m[k] else default
  }

  /** The map after the loop `for k in keys: m[k] = v`. */
  function SetAll<T>(m: map<NodeId, T>, keys: seq<NodeId>, v: T): map<NodeId, T> {
    if keys == [] then m else SetAll(m, keys[..|keys| - 1], v)[keys[|keys| - 1] := v]
  }

  lemma {:induction false} SetAllAt<T>(m: map<NodeId, T>, keys: seq<NodeId>, v: T)
    ensures forall k :: k in keys ==> k in SetAll(m, keys, v) && SetAll(m, keys, v)[k] == v
    ensures forall k :: k !in keys ==> Get(SetAll(m, keys, v), k, v) == Get(m, k, v)
  {
    if keys != [] {
      SetAllAt(m, keys[..|keys| - 1], v);
    }
  }

  function Elements<T>(xs: seq<T>): set<T> {
    set x | x in xs
  }

  function Min(a: real, b: real): real {
    if a <= b then a else b
  }

  function Max(a: real, b: real): real {
    if a >= b then a else b
  }

  function Abs(a: real): real {
    if a >= 0.0 then a else -a
  }
}
