/** Command conservation: every command a coordinator takes in sits in exactly
    one place, the pending list, the batch buffer or one log entry it created. */
module Ledger {
  import opened Types
  import opened Handlers
  import opened Clusters
  import opened Moves
  import Effects
  import Safety

  // ------------------------------------------------------------- flattening

  /** The readings a command stands for; batches may nest. */
  function Flat(c: Command): seq<Command> {
    match c
    case Reading(_, _, _) => [c]
    case Batch(commands, _) => FlatAll(commands)
  }

  function FlatAll(cs: seq<Command>): seq<Command> {
    if cs == [] then [] else Flat(cs[0]) + FlatAll(cs[1..])
  }

  lemma {:induction false} FlatConcat(a: seq<Command>, b: seq<Command>)
    ensures FlatAll(a + b) == FlatAll(a) + FlatAll(b)
  {
    if a == [] {
      assert a + b == b;
    } else {
      assert (a + b)[0] == a[0] && (a + b)[1..] == a[1..] + b;
      FlatConcat(a[1..], b);
    }
  }

  lemma FlatOne(c: Command)
    ensures FlatAll([c]) == Flat(c)
  {
  }

  /** The commands of a log, in order. */
  function Recorded(log: Log): seq<Command> {
    seq(|log|, i requires 0 <= i < |log| => log[i].command)
  }

  function Bag(cs: seq<Command>): multiset<Command> {
    multiset(FlatAll(cs))
  }

  lemma BagConcat(a: seq<Command>, b: seq<Command>)
    ensures Bag(a + b) == Bag(a) + Bag(b)
  {
    FlatConcat(a, b);
  }

  // ------------------------------------------------------------ the balance

  /** What a coordinator has taken in but not yet put in its log. */
  function Held(s: Node): multiset<Command> {
    Bag(Commands(s.pending)) + Bag(s.batch)
  }

  /** The buffer is not full, and its deadline is set exactly while it holds
      something. */
  predicate BatchOk(s: Node) {
    |s.batch| < MAX_BATCH_SIZE && (s.batchDeadline != None <==> s.batch != [])
  }

  /** The coordinator took in `intake` and created the entries `created`. */
  ghost predicate Balanced(s: Node, s': Node, intake: seq<Command>, created: Log) {
    && s'.log == s.log + created
    && Held(s') + Bag(Recorded(created)) == Held(s) + Bag(intake)
    && SameBasis(s, s')
    && (BatchOk(s) ==> BatchOk(s'))
  }

  /** The ping interval stays between the base and the cap. */
  predicate PaceOk(s: Node) {
    LIVENESS_PING_INTERVAL <= s.pingInterval <= ECHOD_PING_MAX_INTERVAL
  }

  predicate KeepsPace(s: Node, s': Node) {
    PaceOk(s) ==> PaceOk(s')
  }

  /** The configuration and the window of recent commands stay as they are. */
  predicate SameBasis(s: Node, s': Node) {
    s'.recent == s.recent && SameConfig(s, s') && KeepsPace(s, s')
  }

  /** The step holds the same commands and leaves the log as it is. */
  predicate Still(s: Node, s': Node) {
    s'.pending == s.pending && s'.batch == s.batch && s'.batchDeadline == s.batchDeadline && s'.log == s.log
    && SameBasis(s, s')
  }

  lemma StillBalanced(s: Node, s': Node)
    requires Still(s, s')
    ensures Balanced(s, s', [], [])
  {
    assert Recorded([]) == [];
  }

  lemma FromStill(s: Node, s1: Node, s2: Node, intake: seq<Command>, created: Log)
    requires Still(s, s1) && Balanced(s1, s2, intake, created)
    ensures Balanced(s, s2, intake, created)
  {
    hide Bag, Recorded;
  }

  lemma ToStill(s: Node, s1: Node, s2: Node, intake: seq<Command>, created: Log)
    requires Balanced(s, s1, intake, created) && Still(s1, s2)
    ensures Balanced(s, s2, intake, created)
  {
    hide Bag, Recorded;
  }
  lemma ReplicateBalanced(s: Node, command: Command, trigger: Trigger)
    ensures var s' := Replicate(s, command, trigger).node;
      && s' == s.(log := s.log + [NewEntry(s, command, trigger)])
      && Balanced(s, s', [command], [NewEntry(s, command, trigger)])
  {
    hide Heartbeats;
    assert Recorded([NewEntry(s, command, trigger)]) == [command];
  }

  function NewEntries(s: Node, proposals: seq<(Command, Trigger)>): Log {
    seq(|proposals|, i requires 0 <= i < |proposals| =>
      LogEntry(|s.log| + i + 1, s.term, proposals[i].0, proposals[i].1, s.epoch))
  }

  /** Replicating a list creates one entry for each of its items, in order. */
  lemma {:induction false} ReplicateAllEntries(s: Node, proposals: seq<(Command, Trigger)>)
    ensures ReplicateAll(s, proposals).node == s.(log := s.log + NewEntries(s, proposals))
    decreases |proposals|
  {
    if proposals == [] {
      assert s.log + NewEntries(s, proposals) == s.log;
    } else {
      var first := Replicate(s, proposals[0].0, proposals[0].1).node;
      ReplicateAllEntries(first, proposals[1..]);
      assert s.log + NewEntries(s, proposals) == first.log + NewEntries(first, proposals[1..]);
    }
  }

  lemma ReplicateAllBalanced(s: Node, proposals: seq<(Command, Trigger)>)
    ensures Balanced(s, ReplicateAll(s, proposals).node, Commands(proposals), NewEntries(s, proposals))
  {
    ReplicateAllEntries(s, proposals);
    assert Recorded(NewEntries(s, proposals)) == Commands(proposals);
  }

  lemma NothingCreated()
    ensures Bag([]) == multiset{} && Recorded([]) == []
  {
  }

  lemma BatchBag(commands: seq<Command>)
    ensures Bag([Batch(commands, |commands|)]) == Bag(commands)
  {
    FlatOne(Batch(commands, |commands|));
  }

  /** Clearing the pending list and replicating what was on it creates no
      command and loses none. */
  lemma FlushPendingBalanced(s: Node, env: Env) returns (created: Log)
    ensures Balanced(s, FlushPending(s, env).node, [], created)
  {
    hide Replicate, ReplicateAll, NewEntries, Bag;
    NothingCreated();
    if s.pending == [] {
      StillBalanced(s, s);
      created := [];
    } else {
      var s1 := s.(pending := [], lastActivity := Later(env));
      var whole := Batch(Commands(s.pending), |s.pending|);
      assert Commands(s1.pending) == [];
      if s.protocol == EchoD && |s.pending| > 1 {
        ReplicateBalanced(s1, whole, s.pending[0].1);
        created := [NewEntry(s1, whole, s.pending[0].1)];
        BatchBag(Commands(s.pending));
      } else {
        ReplicateAllBalanced(s1, s.pending);
        created := NewEntries(s1, s.pending);
      }
    }
  }

  lemma FlushBatchBalanced(s: Node, env: Env) returns (created: Log)
    ensures Balanced(s, FlushBatch(s, env).node, [], created) && BatchOk(FlushBatch(s, env).node)
  {
    hide Replicate, Bag;
    NothingCreated();
    if s.batch == [] {
      created := [];
    } else {
      var s1 := s.(batch := [], batchDeadline := None, lastActivity := env.now);
      var whole := if |s.batch| == 1 then s.batch[0] else Batch(s.batch, |s.batch|);
      ReplicateBalanced(s1, whole, Delta);
      created := [NewEntry(s1, whole, Delta)];
      BatchBag(s.batch);
      assert |s.batch| == 1 ==> s.batch == [whole];
    }
  }

  lemma EnqueueBalanced(s: Node, command: Command, env: Env) returns (created: Log)
    ensures Balanced(s, Enqueue(s, command, env).node, [command], created)
  {
    hide FlushBatch, Bag;
    var s1 := s.(batch := s.batch + [command],
                 batchDeadline := if s.batchDeadline == None then Some(env.now + BATCH_WINDOW) else s.batchDeadline);
    BagConcat(s.batch, [command]);
    NothingCreated();
    created := [];
    if |s1.batch| >= MAX_BATCH_SIZE { created := FlushBatchBalanced(s1, env); }
  }

  // --------------------------------------------------------------- handlers

  /** What the coordinator takes in from a sensor report. Forwarded and
      filtered reports are not taken in. */
  function SensorIntake(s: Node, p: Payload): seq<Command>
    requires p.SensorData?
  {
    if if Leads(s.role) then s.protocol == Raft || !Filtered(s, p) else s.leader == None || s.leader == Some(s.id) then
      [ReadingOf(p)]
    else []
  }

  function Intake(s: Node, a: Action): seq<Command>
    requires a.LeafReport? ==> a.report.SensorData?
  {
    match a
    case LeafReport(_, _, report) => SensorIntake(s, report)
    case Deliver(_, _, packet) =>
      if packet.payload.SensorData? then SensorIntake(s, packet.payload)
      else if packet.payload.ReconcileBatch? && Leads(s.role) then Screen(s.recent, packet.payload.commands).1
      else []
    case _ => []
  }

  lemma SensorBalanced(s: Node, p: Payload, env: Env) returns (created: Log)
    requires p.SensorData?
    ensures Balanced(s, HandleSensor(s, p, env).node, SensorIntake(s, p), created)
  {
    hide Replicate, Enqueue, Filtered, SensorKey, Bag;
    NothingCreated();
    created := [];
    var s1 := s.(lastSensor := s.lastSensor[SensorKey(p) := p.value]);
    if !Leads(s.role) {
      if s.leader == None || s.leader == Some(s.id) { PendingGrows(s, ReadingOf(p)); }
    } else if s.protocol == Raft {
      ReplicateBalanced(s, ReadingOf(p), Event);
      created := [NewEntry(s, ReadingOf(p), Event)];
    } else if !Filtered(s, p) {
      if s.protocol == EchoD {
        created := EnqueueBalanced(s1, ReadingOf(p), env);
      } else {
        ReplicateBalanced(s1, ReadingOf(p), Delta);
        created := [NewEntry(s1, ReadingOf(p), Delta)];
      }
    }
  }

  lemma PendingGrows(s: Node, command: Command)
    ensures Held(s.(pending := s.pending + [(command, Delta)])) == Held(s) + Bag([command])
  {
    BagConcat(Commands(s.pending), [command]);
    assert Commands(s.pending + [(command, Delta)]) == Commands(s.pending) + [command];
  }

  /** Balanced, but for the window of recent reconciliations. */
  lemma ReconcileBalanced(s: Node, p: Payload, env: Env) returns (created: Log)
    requires p.ReconcileBatch?
    ensures var s' := HandleReconcile(s, p, env).node;
      Balanced(s.(recent := s'.recent), s', if Leads(s.role) then Screen(s.recent, p.commands).1 else [], created)
  {
    hide Replicate, ReplicateAll, Screen, Tagged, NewEntries, Bag;
    NothingCreated();
    created := [];
    var (window, unseen) := Screen(s.recent, p.commands);
    ScreenNothing(s.recent);
    if Leads(s.role) && p.commands != [] && unseen != [] {
      var s2 := s.(recent := Trim(window), lastActivity := env.now);
      if s.protocol == EchoD && |unseen| > 1 {
        ReplicateBalanced(s2, Batch(unseen, |unseen|), Reconcile);
        created := [NewEntry(s2, Batch(unseen, |unseen|), Reconcile)];
        BatchBag(unseen);
      } else {
        ReplicateAllBalanced(s2, Tagged(unseen, Reconcile));
        created := NewEntries(s2, Tagged(unseen, Reconcile));
        TaggedCommands(unseen, Reconcile);
      }
    }
  }

  lemma ScreenNothing(recent: seq<Command>)
    ensures Screen(recent, []) == (recent, [])
  {
  }

  lemma TaggedCommands(commands: seq<Command>, trigger: Trigger)
    ensures Commands(Tagged(commands, trigger)) == commands
  {
  }

  lemma StepDownStill(s: Node, t: nat, env: Env)
    ensures Still(s, StepDown(s, t, env)) && StepDown(s, t, env).role in {Follower, Observer}
  {
    hide NewElectionDeadline;
  }

  lemma CampaignStill(s: Node, env: Env)
    ensures Still(s, StartElection(s, env).node)
  {
    hide NewElectionDeadline;
  }

  lemma BecomeLeaderBalanced(s: Node, env: Env) returns (created: Log)
    ensures Balanced(s, BecomeLeader(s, env).node, [], created)
  {
    hide SetAll, FlushPending, SendPing, Heartbeats, Balanced;
    var s1 := AssertLeadership(AssumeOffice(s, env)).node;
    PingStill(AssumeOffice(s, env));
    created := FlushPendingBalanced(s1, env);
    FromStill(s, s1, FlushPending(s1, env).node, [], created);
  }

  lemma PingStill(s: Node)
    ensures Still(s, SendPing(s).node)
  {
  }

  lemma VoteResponseBalanced(s: Node, sender: NodeId, p: Payload, env: Env) returns (created: Log)
    requires p.VoteResponse?
    ensures Balanced(s, HandleVoteResponse(s, sender, p, env).node, [], created)
  {
    hide StepDown, BecomeLeader, Balanced;
    var s' := HandleVoteResponse(s, sender, p, env).node;
    StepDownStill(s, p.term, env);
    created := [];
    var s1 := if p.granted then s.(votes := s.votes[sender := p.battery]) else s;
    if p.term == s.term && s.role == Candidate && Majority(|s1.votes|, s1) {
      created := BecomeLeaderBalanced(s1, env);
      FromStill(s, s1, s', [], created);
    } else {
      StillBalanced(s, s');
    }
  }

  lemma RequestVoteStill(s: Node, sender: NodeId, p: Payload, env: Env)
    requires p.RequestVote?
    ensures Still(s, HandleRequestVote(s, sender, p, env).node)
  {
    hide StepDown, NewElectionDeadline, UpToDate;
    StepDownStill(s, p.term, env);
  }

  lemma AckStill(s: Node, sender: NodeId, p: Payload, env: Env)
    requires p.AppendResponse?
    ensures Still(s, HandleAppendResponse(s, sender, p, env))
  {
    hide StepDown, CommitPoint;
    StepDownStill(s, p.term, env);
  }

  lemma PingHeardStill(s: Node, p: Payload, env: Env)
    requires p.LivenessPing?
    ensures Still(s, HandlePing(s, p, env))
  {
    hide StepDown, NewElectionDeadline;
    StepDownStill(s, p.term, env);
  }

  lemma HandoffStill(s: Node, p: Payload, env: Env)
    requires p.LeadershipHandoff?
    ensures Still(s, HandleHandoff(s, p, env).node)
  {
    hide StepDown, StartElection;
    StepDownStill(s, p.term, env);
    CampaignStill(s, env);
    CampaignStill(StepDown(s, p.term, env), env);
  }

  /** Taking a leader's entries touches the log, and nothing else that is held. */
  lemma AppendStill(s: Node, sender: NodeId, p: Payload, env: Env)
    requires p.AppendEntries?
    ensures var s' := HandleAppendEntries(s, sender, p, env).node; Still(s.(log := s'.log), s')
  {
    hide StepDown, AcceptOrReject;
    StepDownStill(s, p.term, env);
    AcceptStill(if p.term > s.term then StepDown(s, p.term, env) else s, sender, p, env);
  }

  lemma AcceptStill(s: Node, sender: NodeId, p: Payload, env: Env)
    requires p.AppendEntries?
    ensures var s' := AcceptOrReject(s, sender, p, env).node; Still(s.(log := s'.log), s')
  {
    hide StoreAll, NewElectionDeadline, Still;
    var s1 := ResetElectionTimer(s, env).(leader := Some(p.leader),
      role := if s.role == Candidate then Follower else s.role);
    var s' := AcceptOrReject(s, sender, p, env).node;
    Effects.StoreAllEffect(s1, p.entries);
    assert s' == s1.(log := s'.log, commit := s'.commit);
    StillTouch(s, s', s'.electionDeadline, s'.leader, s'.role, s'.commit);
  }

  lemma StillTouch(s: Node, s': Node, deadline: real, leader: Option<NodeId>, role: Role, commit: nat)
    requires s' == s.(log := s'.log, electionDeadline := deadline, leader := leader, role := role, commit := commit)
    ensures Still(s.(log := s'.log), s')
  {
  }

  lemma LeaderTickBalanced(s: Node, env: Env) returns (created: Log)
    ensures Balanced(s, LeaderTick(s, env).node, [], created)
  {
    hide FlushIfDue, PingIfDue, HandoffIfLow, Balanced;
    if s.protocol == EchoD {
      var s1 := FlushIfDue(s, env).node;
      created := FlushIfDueBalanced(s, env);
      PingIfDueStill(s1, s1.pingInterval, env);
      var s2 := PingIfDue(s1, s1.pingInterval, env).node;
      HandoffIfLowStill(s2, env);
      ToStill(s, s1, LeaderTick(s, env).node, [], created);
    } else {
      PingIfDueStill(s, RAFT_HEARTBEAT_INTERVAL, env);
      PingIfDueStill(s, LIVENESS_PING_INTERVAL, env);
      StillBalanced(s, LeaderTick(s, env).node);
      created := [];
    }
  }

  lemma FlushIfDueBalanced(s: Node, env: Env) returns (created: Log)
    ensures Balanced(s, FlushIfDue(s, env).node, [], created)
  {
    hide FlushBatch, Balanced;
    if s.batchDeadline != None && env.now >= s.batchDeadline.value {
      created := FlushBatchBalanced(s, env);
    } else {
      StillBalanced(s, s);
      created := [];
    }
  }

  lemma PingIfDueStill(s: Node, interval: real, env: Env)
    ensures Still(s, PingIfDue(s, interval, env).node)
  {
    hide Heartbeats, SendPing;
    PingStill(s);
  }

  lemma HandoffIfLowStill(s: Node, env: Env)
    ensures Still(s, HandoffIfLow(s, env).node)
  {
    hide Successor, NewElectionDeadline;
  }

  // ------------------------------------------------------------------ steps

  predicate TakesEntries(a: Action) {
    a.Deliver? && a.packet.payload.AppendEntries?
  }

  predicate Reconciles(s: Node, a: Action) {
    a.Deliver? && a.packet.payload.ReconcileBatch? && Leads(s.role) && a.packet.payload.commands != []
  }

  /** The entries that step a of the coordinator created, read off its log. */
  function Created(s: Node, a: Action, s': Node): Log {
    if TakesEntries(a) || |s'.log| < |s.log| then [] else s'.log[|s.log|..]
  }

  /** Outside AppendEntries a log only grows, and every command taken in or held
      before the step is held after it or in an entry the step created. */
  ghost predicate Accounted(s: Node, a: Action, s': Node)
    requires a.LeafReport? ==> a.report.SensorData?
  {
    && (!TakesEntries(a) ==> s'.log == s.log + Created(s, a, s'))
    && Held(s') + Bag(Recorded(Created(s, a, s'))) == Held(s) + Bag(Intake(s, a))
    && s'.recent == (if Reconciles(s, a) then Trim(Screen(s.recent, a.packet.payload.commands).0) else s.recent)
    && (BatchOk(s) ==> BatchOk(s')) && KeepsPace(s, s') && SameConfig(s, s')
  }

  lemma BalancedAccounts(s: Node, a: Action, s': Node, created: Log)
    requires a.LeafReport? ==> a.report.SensorData?
    requires !TakesEntries(a) && Balanced(s.(recent := s'.recent), s', Intake(s, a), created)
    requires s'.recent == (if Reconciles(s, a) then Trim(Screen(s.recent, a.packet.payload.commands).0) else s.recent)
    ensures Accounted(s, a, s')
  {
    hide Bag, Intake, Screen;
    assert Created(s, a, s') == created;
  }

  lemma StillAccounts(s: Node, a: Action, s': Node)
    requires a.LeafReport? ==> a.report.SensorData?
    requires Intake(s, a) == [] && !TakesEntries(a) && !Reconciles(s, a) && Still(s, s')
    ensures Accounted(s, a, s')
  {
    hide Intake;
    StillBalanced(s, s');
    BalancedAccounts(s, a, s', []);
  }

  lemma ReconcileAccounts(s: Node, a: Action, p: Payload)
    requires a.Deliver? && p == a.packet.payload && p.ReconcileBatch?
    ensures Accounted(s, a, HandleReconcile(s, p, a.env).node)
  {
    hide Balanced, Accounted;
    var created := ReconcileBalanced(s, p, a.env);
    ScreenNothing(s.recent);
    ReconcileWindow(s, p, a.env);
    BalancedAccounts(s, a, HandleReconcile(s, p, a.env).node, created);
  }

  lemma ReconcileWindow(s: Node, p: Payload, env: Env)
    requires p.ReconcileBatch?
    ensures HandleReconcile(s, p, env).node.recent ==
      if Leads(s.role) && p.commands != [] then Trim(Screen(s.recent, p.commands).0) else s.recent
  {
    hide Replicate, Screen, Tagged;
    var s2 := s.(recent := Trim(Screen(s.recent, p.commands).0), lastActivity := env.now);
    var unseen := Screen(s.recent, p.commands).1;
    ReplicateBalanced(s2, Batch(unseen, |unseen|), Reconcile);
    ReplicateAllEntries(s2, Tagged(unseen, Reconcile));
  }

  lemma AppendAccounts(s: Node, a: Action)
    requires TakesEntries(a)
    ensures Accounted(s, a, HandleAppendEntries(s, a.packet.src, a.packet.payload, a.env).node)
  {
    hide HandleAppendEntries, Bag;
    NothingCreated();
    AppendStill(s, a.packet.src, a.packet.payload, a.env);
  }

  lemma DeliverAccounts(s: Node, a: Action)
    requires a.Deliver?
    ensures Accounted(s, a, Fire(s, a).node)
  {
    hide HandleRequestVote, HandleVoteResponse, HandleAppendEntries, HandleAppendResponse,
      HandlePing, HandleSensor, HandleHandoff, HandleReconcile, Accounted, Balanced, Screen;
    var sender, p, env := a.packet.src, a.packet.payload, a.env;
    var s' := Fire(s, a).node;
    match p {
      case RequestVote(_, _, _, _, _) =>
        RequestVoteStill(s, sender, p, env);
        StillAccounts(s, a, s');
      case VoteResponse(_, _, _, _) =>
        var created := VoteResponseBalanced(s, sender, p, env);
        PlainAccounts(s, a, s', created);
      case AppendEntries(_, _, _, _, _, _) => AppendAccounts(s, a);
      case AppendResponse(_, _, _, _, _, _) =>
        AckStill(s, sender, p, env);
        StillAccounts(s, a, s');
      case LivenessPing(_, _) =>
        PingHeardStill(s, p, env);
        StillAccounts(s, a, s');
      case SensorData(_, _, _) =>
        var created := SensorBalanced(s, p, env);
        PlainAccounts(s, a, s', created);
      case LeadershipHandoff(_, _) =>
        HandoffStill(s, p, env);
        StillAccounts(s, a, s');
      case ReconcileBatch(_, _, _) => ReconcileAccounts(s, a, p);
    }
  }

  lemma PlainAccounts(s: Node, a: Action, s': Node, created: Log)
    requires a.LeafReport? ==> a.report.SensorData?
    requires !TakesEntries(a) && !Reconciles(s, a) && Balanced(s, s', Intake(s, a), created)
    ensures Accounted(s, a, s')
  {
    hide Intake, Screen, Accounted;
    assert s'.recent == s.recent;
    assert s.(recent := s'.recent) == s;
    BalancedAccounts(s, a, s', created);
  }

  lemma TickAccounts(s: Node, a: Action)
    requires a.TimerTick?
    ensures Accounted(s, a, Tick(s, a.env).node)
  {
    hide LeaderTick, StartElection, Accounted, Balanced;
    if Leads(s.role) {
      var created := LeaderTickBalanced(s, a.env);
      PlainAccounts(s, a, LeaderTick(s, a.env).node, created);
    } else {
      CampaignStill(s, a.env);
      StillAccounts(s, a, Tick(s, a.env).node);
    }
  }

  lemma CheckStill(s: Node, env: Env)
    ensures Still(s, CheckBattery(s, env))
  {
    hide Still;
    RoleStill(s, CheckBattery(s, env).role, CheckBattery(s, env).votedFor);
  }

  lemma RoleStill(s: Node, role: Role, votedFor: Option<NodeId>)
    ensures Still(s, s.(role := role, votedFor := votedFor))
  {
  }

  lemma PartitionStill(s: Node, heal: bool)
    ensures Still(s, Handlers.HandlePartitionControl(s, heal))
  {
  }

  lemma FireAccounts(s: Node, a: Action)
    requires a.LeafReport? ==> a.report.SensorData?
    ensures Accounted(s, a, Fire(s, a).node)
  {
    hide Dispatch, HandleSensor, Tick, CheckBattery, Handlers.HandlePartitionControl, Accounted, Balanced, Still;
    var s' := Fire(s, a).node;
    match a {
      case Deliver(_, _, _) => DeliverAccounts(s, a);
      case TimerTick(_, _) => TickAccounts(s, a);
      case LeafReport(_, env, report) =>
        var created := SensorBalanced(s, report, env);
        PlainAccounts(s, a, s', created);
      case BatteryCheck(_, env) =>
        CheckStill(s, env);
        StillAccounts(s, a, s');
      case PartitionControl(_, _, heal) =>
        PartitionStill(s, heal);
        StillAccounts(s, a, s');
    }
  }

  // ------------------------------------------------------------- whole runs

  function IntakeOf(c: Cluster, a: Action, n: NodeId): multiset<Command>
    requires Enabled(c, a)
  {
    if a.node == n then Bag(Intake(c.nodes[n], a)) else multiset{}
  }

  function EntriesOf(c: Cluster, a: Action, n: NodeId): multiset<Command>
    requires Enabled(c, a)
  {
    if a.node == n then Bag(Recorded(Created(c.nodes[n], a, Apply(c, a).nodes[n]))) else multiset{}
  }

  lemma StepConserves(c: Cluster, a: Action, n: NodeId)
    requires Enabled(c, a) && n in c.nodes
    ensures EntriesOf(c, a, n) + Held(Apply(c, a).nodes[n]) == Held(c.nodes[n]) + IntakeOf(c, a, n)
  {
    hide Held, Bag, Intake, Fire, Created, Recorded, Screen;
    if a.node == n { FireAccounts(c.nodes[n], a); }
  }

  ghost predicate EnabledAll(run: seq<Cluster>, acts: seq<Action>) {
    |run| == |acts| + 1 && forall i :: 0 <= i < |acts| ==> Enabled(run[i], acts[i])
  }

  /** All the commands n has taken in during the run, flattened. */
  ghost function TakenIn(run: seq<Cluster>, acts: seq<Action>, n: NodeId): multiset<Command>
    requires EnabledAll(run, acts)
    decreases |acts|
  {
    if acts == [] then multiset{}
    else
      var last := |acts| - 1;
      assert Enabled(run[last], acts[last]);
      TakenIn(run[..last + 1], acts[..last], n) + IntakeOf(run[last], acts[last], n)
  }

  /** All the commands of the entries n has created during the run, flattened. */
  ghost function PutInLog(run: seq<Cluster>, acts: seq<Action>, n: NodeId): multiset<Command>
    requires EnabledAll(run, acts)
    decreases |acts|
  {
    if acts == [] then multiset{}
    else
      var last := |acts| - 1;
      assert Enabled(run[last], acts[last]);
      PutInLog(run[..last + 1], acts[..last], n) + EntriesOf(run[last], acts[last], n)
  }

  lemma RunEnabled(run: seq<Cluster>, acts: seq<Action>)
    requires IsRun(run, acts)
    ensures EnabledAll(run, acts)
  {
    hide Init, Apply, Enabled;
  }

  /** Command conservation, across step-downs and re-elections: what n took in
      is what it put in entries and what it still holds, each command once. */
  lemma {:induction false} CommandsConserved(run: seq<Cluster>, acts: seq<Action>, n: NodeId)
    requires IsRun(run, acts) && n in run[0].nodes
    ensures n in run[|acts|].nodes
    ensures TakenIn(run, acts, n) == PutInLog(run, acts, n) + Held(run[|acts|].nodes[n])
    decreases |acts|
  {
    hide Held, IntakeOf, EntriesOf, Fire, Enabled, Init;
    if acts == [] {
      NothingHeld(run[0], n);
    } else {
      var last := |acts| - 1;
      Safety.PrefixIsRun(run, acts);
      RunEnabled(run[..last + 1], acts[..last]);
      CommandsConserved(run[..last + 1], acts[..last], n);
      assert run[..last + 1][last] == run[last] && run[..last + 1][0] == run[0];
      StepConserves(run[last], acts[last], n);
      Sums(TakenIn(run[..last + 1], acts[..last], n), PutInLog(run[..last + 1], acts[..last], n),
        IntakeOf(run[last], acts[last], n), EntriesOf(run[last], acts[last], n),
        Held(run[last].nodes[n]), Held(run[last + 1].nodes[n]));
    }
  }

  lemma Sums(taken: multiset<Command>, put: multiset<Command>, intake: multiset<Command>, created: multiset<Command>,
             held: multiset<Command>, held': multiset<Command>)
    requires taken == put + held && created + held' == held + intake
    ensures taken + intake == put + created + held'
  {
    assert taken + intake == put + (held + intake);
  }

  lemma NothingHeld(c: Cluster, n: NodeId)
    requires Init(c) && n in c.nodes
    ensures Held(c.nodes[n]) == multiset{}
  {
    assert Booted(c.nodes[n]);
    NothingCreated();
  }

  /** In every reachable state the batch buffer is below its limit and has a
      deadline exactly when it is not empty. */
  lemma {:induction false} BatchBounded(run: seq<Cluster>, acts: seq<Action>, n: NodeId)
    requires IsRun(run, acts) && n in run[0].nodes
    ensures n in run[|acts|].nodes && BatchOk(run[|acts|].nodes[n])
    decreases |acts|
  {
    hide Fire, Enabled, Init, BatchOk, Held, Intake, Created, Screen;
    if acts == [] {
      EmptyBatch(run[0], n);
    } else {
      var last := |acts| - 1;
      Safety.PrefixIsRun(run, acts);
      BatchBounded(run[..last + 1], acts[..last], n);
      assert run[..last + 1][last] == run[last] && run[..last + 1][0] == run[0];
      if acts[last].node == n { EnabledAccounts(run[last], acts[last]); }
    }
  }

  lemma EnabledAccounts(c: Cluster, a: Action)
    requires Enabled(c, a)
    ensures Apply(c, a).nodes[a.node] == Fire(c.nodes[a.node], a).node
    ensures Accounted(c.nodes[a.node], a, Fire(c.nodes[a.node], a).node)
  {
    hide Accounted, Fire;
    FireAccounts(c.nodes[a.node], a);
  }

  lemma EmptyBatch(c: Cluster, n: NodeId)
    requires Init(c) && n in c.nodes
    ensures BatchOk(c.nodes[n])
  {
    assert Booted(c.nodes[n]);
  }
}
