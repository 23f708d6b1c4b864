/** Traces: runs of a three-node cluster, built step by step. */
module Traces {
  import opened Types
  import opened Handlers
  import opened Clusters
  import CatchUp
  import Effects
  import FirstBallot
  import Following
  import Ledger
  import Moves
  import Refinement
  import Replication

  // -------------------------------------------------- three-node clusters

  function OthersOf(n: NodeId): seq<NodeId> {
    if n == 0 then [1, 2] else if n == 1 then [0, 2] else [0, 1]
  }

  function NewNode(n: NodeId, protocol: Protocol): Node {
    Node(n, protocol, OthersOf(n), 0, Follower, 0, None, [], 0, map[], 1.2, map[], map[], 0.0, map[],
         None, [], 0, [], None, LIVENESS_PING_INTERVAL, 0.0, map[], false, [])
  }

  function NewTrio(protocol: Protocol): Cluster {
    Cluster(protocol, map[0 := NewNode(0, protocol), 1 := NewNode(1, protocol), 2 := NewNode(2, protocol)], {}, {})
  }

  ghost predicate Trio(c: Cluster) {
    && c.nodes.Keys == {0, 1, 2}
    && forall n :: n in c.nodes ==>
        c.nodes[n].id == n && c.nodes[n].peers == OthersOf(n) && c.nodes[n].protocol == c.protocol
  }

  datatype Trace = Trace(run: seq<Cluster>, acts: seq<Action>)

  ghost predicate Valid(t: Trace) {
    IsRun(t.run, t.acts) && Trio(t.run[|t.acts|])
  }

  ghost function Now(t: Trace): Cluster
    requires Valid(t)
  {
    t.run[|t.acts|]
  }

  /** The two halves of the hypothesis on acks. */
  datatype Half = Current | Exact

  predicate Meets(c: Cluster, a: Action, half: Half)
    requires Enabled(c, a)
  {
    if half == Current then CurrentAck(c, a) else ExactAck(c, a)
  }

  ghost predicate Keeps(t: Trace, half: Half) {
    && |t.run| == |t.acts| + 1
    && forall i :: 0 <= i < |t.acts| ==> Enabled(t.run[i], t.acts[i]) && Meets(t.run[i], t.acts[i], half)
  }

  /** t' goes on from t, and counts no ack that breaks a half that t keeps. */
  ghost predicate Extends(t: Trace, t': Trace) {
    && t.run != [] && t'.run != [] && t'.run[0] == t.run[0]
    && forall half :: Keeps(t, half) ==> Keeps(t', half)
  }

  lemma Begin(protocol: Protocol) returns (t: Trace)
    ensures Valid(t) && Now(t) == NewTrio(protocol) && t.run[0].protocol == protocol
    ensures forall half :: Keeps(t, half)
  {
    hide Init;
    var c := NewTrio(protocol);
    t := Trace([c], []);
    TrioStarts(protocol);
  }

  lemma TrioStarts(protocol: Protocol)
    ensures Init(NewTrio(protocol)) && Trio(NewTrio(protocol))
  {
    hide NewNode, Booted, OthersOf, Configured;
    var c := NewTrio(protocol);
    forall n | n in c.nodes ensures c.nodes[n] == NewNode(n, protocol) && Booted(c.nodes[n]) {
      NewNodeStarts(n, protocol);
    }
    NewNodeStarts(0, protocol);
    NewNodeStarts(1, protocol);
    NewNodeStarts(2, protocol);
    TrioConfigured(c);
  }

  lemma TrioConfigured(c: Cluster)
    requires Trio(c)
    ensures Configured(c)
  {
    assert |c.nodes| == |c.nodes.Keys| == 3;
    forall n | n in c.nodes ensures ConfiguredNode(c, n) {
      assert Elements(OthersOf(n)) == c.nodes.Keys - {n};
    }
  }

  lemma NewNodeStarts(n: NodeId, protocol: Protocol)
    ensures var s := NewNode(n, protocol); Booted(s) && s.id == n && s.protocol == protocol && s.peers == OthersOf(n)
  {
  }

  /** The trace with one more step. */
  lemma Take(t: Trace, a: Action) returns (t': Trace)
    requires Valid(t) && Enabled(Now(t), a)
    ensures Valid(t') && Now(t') == Apply(Now(t), a) && t'.run[0] == t.run[0]
    ensures forall half :: Keeps(t, half) && Meets(Now(t), a, half) ==> Keeps(t', half)
  {
    hide Fire, Init, Meets;
    var c := Now(t);
    t' := Trace(t.run + [Apply(c, a)], t.acts + [a]);
    Ledger.EnabledAccounts(c, a);
  }

  /** The trace with one more step that counts no ack. */
  lemma Walk(t: Trace, a: Action) returns (t': Trace)
    requires Valid(t) && Enabled(Now(t), a) && !CountsAck(Now(t), a)
    ensures Valid(t') && Now(t') == Apply(Now(t), a) && Extends(t, t')
  {
    hide Init, Apply, Keeps;
    t' := Take(t, a);
  }

  /** What reads its clock at `now` and samples `battery`. */
  function At(now: real, battery: Battery): Env {
    Env(now, 0.0, battery, 1.2)
  }

  /** x's first heartbeat to p: it carries nothing and is prefixed by x's log. */
  function FirstBeat(s: Node, p: NodeId): Packet {
    Packet(s.id, To(p), AppendEntries(s.term, s.id, |s.log|, LastTerm(s.log), [], s.commit))
  }

  lemma OfficeFacts(s: Node, env: Env)
    requires s.pending == []
    ensures var o := BecomeLeader(s, env);
      && o.node.log == s.log && o.node.commit == s.commit && o.node.pending == [] && o.node.role == Leader
      && o.node.term == s.term && o.node.id == s.id && o.node.electionDeadline == s.electionDeadline
      && (forall p :: p in s.peers ==> p in o.node.nextIndex && o.node.nextIndex[p] == |s.log| + 1)
      && o.node.epoch == s.epoch
      && (s.protocol == Raft ==> forall p :: p in s.peers ==> FirstBeat(s, p) in o.sent)
  {
    hide SetAll, SendPing, Heartbeats;
    var s1 := AssumeOffice(s, env);
    SetAllAt(s.nextIndex, s.peers, (|s.log| + 1) as pos);
    SendPingFacts(s1);
    forall p | p in s.peers ensures FirstBeat(s, p) in Heartbeats(s1) {
      var i :| 0 <= i < |s.peers| && s.peers[i] == p;
      FirstBeatSent(s1, p);
    }
  }

  lemma SendPingFacts(s: Node)
    ensures SendPing(s).node == s.(pingInterval := SendPing(s).node.pingInterval)
  {
  }

  lemma FirstBeatSent(s: Node, p: NodeId)
    requires p in s.peers && p in s.nextIndex && s.nextIndex[p] == |s.log| + 1
    ensures FirstBeat(s, p) in Heartbeats(s)
  {
    var i :| 0 <= i < |s.peers| && s.peers[i] == p;
    assert Heartbeats(s)[i] == AppendTo(s, p);
  }

  /** One voter makes a majority of three. */
  lemma TallyWins(s: Node, x: NodeId, v: NodeId, p: Payload, envV: Env, env: Env)
    requires p.RequestVote? && s.term == p.term && s.role == Candidate && |s.peers| == 2
    requires s.votes.Keys == {x} && v != x && s.pending == []
    ensures exists votes ::
      FirstBallot.Tally(s, v, p, envV, env) == BecomeLeader(s.(votes := votes), env)
  {
    hide BecomeLeader;
    var votes := s.votes[v := envV.battery];
    assert votes.Keys == {x, v} && |votes| == |votes.Keys|;
    assert Majority(|votes|, s.(votes := votes));
  }

  /** Node s became s' by winning term `term`. */
  predicate NewLeader(s: Node, s': Node, now: real) {
    && s'.id == s.id && s'.role == Leader && s'.term == s.term + 1 && s'.log == s.log && s'.commit == s.commit
    && s'.pending == []
    && s'.electionDeadline <= now + 1.2
    && (forall p :: p in s.peers ==> p in s'.nextIndex && s'.nextIndex[p] == |s.log| + 1) && s'.epoch == s.epoch
  }

  predicate NewVoter(s: Node, s': Node, x: NodeId, t: nat, now: real) {
    && s'.term == t && s'.votedFor == Some(x) && s'.role == Follower && s'.log == s.log && s'.commit == s.commit
    && s'.pending == s.pending && s'.electionDeadline <= now + 1.2
  }

  /** Only the nodes of xs took steps from c to c'. */
  ghost predicate OnlyMoved(c: Cluster, c': Cluster, xs: set<NodeId>) {
    && c'.protocol == c.protocol && c.msgs <= c'.msgs && Trio(c) && Trio(c')
    && forall w :: w in c.nodes && w !in xs ==> c'.nodes[w] == c.nodes[w]
  }

  /** From c to c', x stood at time `now` and won with the vote of v. */
  ghost predicate WonWith(c: Cluster, c': Cluster, x: NodeId, v: NodeId, now: real) {
    && OnlyMoved(c, c', {x, v}) && x in c.nodes && v in c.nodes
    && NewLeader(c.nodes[x], c'.nodes[x], now)
    && NewVoter(c.nodes[v], c'.nodes[v], x, c.nodes[x].term + 1, now)
    && Beaten(c', x)
  }

  /** A `raft` leader has sent its first heartbeats. */
  ghost predicate Beaten(c: Cluster, x: NodeId) {
    c.protocol == Raft && x in c.nodes ==> forall p :: p in OthersOf(x) ==> FirstBeat(c.nodes[x], p) in c.msgs
  }

  ghost predicate MayWin(c: Cluster, x: NodeId, v: NodeId, now: real) {
    && Trio(c) && x in c.nodes && v in c.nodes && x != v && c.protocol != EchoD
    && var s, r := c.nodes[x], c.nodes[v];
    && s.role in {Follower, Candidate} && s.electionDeadline <= now && s.pending == []
    && r.role == Follower && (r.term <= s.term || (r.term == s.term + 1 && r.votedFor == None))
    && UpToDate(r.log, |s.log|, LastTerm(s.log))
  }

  lemma WinsWith(t: Trace, x: NodeId, v: NodeId, now: real) returns (t': Trace)
    requires Valid(t) && MayWin(Now(t), x, v, now)
    ensures Valid(t') && Extends(t, t') && WonWith(Now(t), Now(t'), x, v, now)
  {
    hide UpToDate, Valid, StoodIn, VotedIn, WonWith, MayVote, OnlyMoved;
    Members(t);
    var t1 := StandStep(t, x, now);
    Asked(Now(t), Now(t1), x, v, now);
    t' := VoteStep(t1, x, v, now);
    Won(Now(t), Now(t1), Now(t'), x, v, now);
  }

  ghost predicate StoodIn(c: Cluster, c': Cluster, x: NodeId, now: real) {
    && OnlyMoved(c, c', {x}) && x in c.nodes && Stood(c.nodes[x], c'.nodes[x], now)
    && (forall v :: v in OthersOf(x) ==> FirstBallot.Request(x, v, VoteRequest(c'.nodes[x], At(now, 100))) in c'.msgs)
  }

  ghost predicate MayVote(c: Cluster, x: NodeId, v: NodeId, now: real) {
    && Trio(c) && x in c.nodes && v in c.nodes && x != v && c.protocol != EchoD
    && var s, r := c.nodes[x], c.nodes[v];
    && s.id == x && s.role == Candidate && s.votes.Keys == {x} && s.pending == []
    && r.role == Follower && r.term <= s.term && (r.term == s.term ==> r.votedFor == None)
    && UpToDate(r.log, |s.log|, LastTerm(s.log))
    && FirstBallot.Request(x, v, VoteRequest(s, At(now, 100))) in c.msgs
  }

  ghost predicate VotedIn(c: Cluster, c': Cluster, x: NodeId, v: NodeId, now: real) {
    && OnlyMoved(c, c', {x, v}) && x in c.nodes && v in c.nodes && x != v
    && Elected(c.nodes[x], c'.nodes[x])
    && NewVoter(c.nodes[v], c'.nodes[v], x, c.nodes[x].term, now)
    && Beaten(c', x)
  }

  lemma Asked(c: Cluster, c1: Cluster, x: NodeId, v: NodeId, now: real)
    requires MayWin(c, x, v, now) && StoodIn(c, c1, x, now)
    ensures MayVote(c1, x, v, now)
  {
    hide UpToDate;
  }

  /** Node s became s' by standing for the next term. */
  predicate Stood(s: Node, s': Node, now: real) {
    && s'.id == s.id && s'.role == Candidate && s'.term == s.term + 1 && s'.log == s.log && s'.commit == s.commit
    && s'.pending == s.pending && s'.peers == s.peers && s'.votes.Keys == {s.id} && s'.electionDeadline == now + 1.2
    && s'.epoch == s.epoch
  }

  predicate Elected(s: Node, s': Node) {
    && s'.id == s.id && s'.role == Leader && s'.term == s.term && s'.log == s.log && s'.commit == s.commit
    && s'.pending == []
    && s'.electionDeadline == s.electionDeadline
    && (forall p :: p in s.peers ==> p in s'.nextIndex && s'.nextIndex[p] == |s.log| + 1) && s'.epoch == s.epoch
  }

  lemma Won(c: Cluster, c1: Cluster, c2: Cluster, x: NodeId, v: NodeId, now: real)
    requires StoodIn(c, c1, x, now) && VotedIn(c1, c2, x, v, now)
    ensures WonWith(c, c2, x, v, now)
  {
    hide Beaten, FirstBallot.Request;
    assert c.nodes.Keys == c1.nodes.Keys;
  }

  lemma Members(t: Trace)
    requires Valid(t)
    ensures Trio(Now(t))
  {
  }

  lemma StandStep(t: Trace, x: NodeId, now: real) returns (t': Trace)
    requires Valid(t) && x in Now(t).nodes && Now(t).protocol != EchoD
    requires var s := Now(t).nodes[x]; s.role in {Follower, Candidate} && s.electionDeadline <= now
    ensures Valid(t') && Extends(t, t') && StoodIn(Now(t), Now(t'), x, now)
  {
    hide StartElection, IsRun;
    var s, env := Now(t).nodes[x], At(now, 100);
    FirstBallot.Campaigning(s, env);
    StandFacts(s, env);
    t' := Walk(t, TimerTick(x, env));
    var o := StartElection(s, env);
    forall v | v in OthersOf(x) ensures FirstBallot.Request(x, v, VoteRequest(o.node, env)) in Elements(o.sent) {
      assert v in s.peers;
    }
  }

  lemma VoteStep(t: Trace, x: NodeId, v: NodeId, now: real) returns (t': Trace)
    requires Valid(t) && MayVote(Now(t), x, v, now)
    ensures Valid(t') && Extends(t, t') && VotedIn(Now(t), Now(t'), x, v, now)
  {
    hide UpToDate, Valid, NewVoter, Elected, Beaten, VotedIn, Trio;
    var p := VoteRequest(Now(t).nodes[x], At(now, 100));
    var t1 := GrantStep(t, x, v, p, now);
    assert x in Now(t1).nodes && v in Now(t1).nodes by { SameMembers(Now(t), Now(t1), {v}); }
    t' := CountStep(t1, x, v, p, now);
    Voted(Now(t), Now(t1), Now(t'), x, v, now);
  }

  lemma SameMembers(c: Cluster, c': Cluster, xs: set<NodeId>)
    requires OnlyMoved(c, c', xs)
    ensures c'.nodes.Keys == c.nodes.Keys
  {
  }

  lemma Voted(c: Cluster, c1: Cluster, c2: Cluster, x: NodeId, v: NodeId, now: real)
    requires OnlyMoved(c, c1, {v}) && OnlyMoved(c1, c2, {x}) && x in c.nodes && v in c.nodes && x != v
    requires NewVoter(c.nodes[v], c1.nodes[v], x, c.nodes[x].term, now)
    requires Elected(c1.nodes[x], c2.nodes[x]) && Beaten(c2, x)
    ensures VotedIn(c, c2, x, v, now)
  {
    hide Beaten, Elected, NewVoter;
  }

  lemma GrantStep(t: Trace, x: NodeId, v: NodeId, p: Payload, now: real) returns (t': Trace)
    requires Valid(t) && x in Now(t).nodes && v in Now(t).nodes && x != v && Now(t).protocol != EchoD
    requires p.RequestVote? && p.candidate == x && p.battery >= T_LOW
    requires var r := Now(t).nodes[v];
      && r.role == Follower && r.term <= p.term && (r.term == p.term ==> r.votedFor == None)
      && UpToDate(r.log, p.lastIndex, p.lastTerm)
      && FirstBallot.Request(x, v, p) in Now(t).msgs
    ensures Valid(t') && Extends(t, t') && OnlyMoved(Now(t), Now(t'), {v})
    ensures NewVoter(Now(t).nodes[v], Now(t').nodes[v], x, p.term, now)
    ensures FirstBallot.Grant(x, v, p.term, At(now, 100)) in Now(t').msgs
  {
    hide HandleRequestVote, UpToDate, IsRun;
    var r, env := Now(t).nodes[v], At(now, 100);
    FirstBallot.VoterGrants(r, x, p, env);
    Ledger.RequestVoteStill(r, x, p, env);
    t' := Walk(t, Deliver(v, env, FirstBallot.Request(x, v, p)));
    assert FirstBallot.Grant(x, v, p.term, env) in Elements(HandleRequestVote(r, x, p, env).sent);
  }

  lemma CountStep(t: Trace, x: NodeId, v: NodeId, p: Payload, now: real) returns (t': Trace)
    requires Valid(t) && x in Now(t).nodes && v in Now(t).nodes && x != v
    requires p.RequestVote? && p.term == Now(t).nodes[x].term
    requires var s := Now(t).nodes[x]; s.role == Candidate && s.votes.Keys == {x} && s.pending == []
    requires FirstBallot.Grant(x, v, p.term, At(now, 100)) in Now(t).msgs
    ensures Valid(t') && Extends(t, t') && OnlyMoved(Now(t), Now(t'), {x})
    ensures Elected(Now(t).nodes[x], Now(t').nodes[x]) && Beaten(Now(t'), x)
  {
    hide HandleVoteResponse, FirstBallot.Tally, IsRun, Elected, FirstBeat;
    var s, env := Now(t).nodes[x], At(now, 100);
    t' := Walk(t, Deliver(x, env, FirstBallot.Grant(x, v, p.term, env)));
    ElectedBy(s, x, v, p, env);
    TallyIs(s, v, p, env);
    forall q | q in OthersOf(x) && s.protocol == Raft ensures FirstBeat(Now(t').nodes[x], q) in Now(t').msgs {
      assert FirstBeat(FirstBallot.Tally(s, v, p, env, env).node, q)
        in Elements(FirstBallot.Tally(s, v, p, env, env).sent);
    }
  }

  lemma ElectedBy(s: Node, x: NodeId, v: NodeId, p: Payload, env: Env)
    requires p.RequestVote? && s.term == p.term && s.role == Candidate && s.peers == OthersOf(x) && s.id == x
    requires s.votes.Keys == {x} && v != x && s.pending == []
    ensures var o := FirstBallot.Tally(s, v, p, env, env);
      && Elected(s, o.node)
      && (s.protocol == Raft ==> forall q :: q in OthersOf(x) ==> FirstBeat(o.node, q) in o.sent)
  {
    hide BecomeLeader, FirstBallot.Tally;
    TallyWins(s, x, v, p, env, env);
    var votes :| FirstBallot.Tally(s, v, p, env, env) == BecomeLeader(s.(votes := votes), env);
    OfficeFacts(s.(votes := votes), env);
  }

  lemma StandFacts(s: Node, env: Env)
    requires s.role != Observer && s.protocol != EchoD
    ensures var o := StartElection(s, env);
      o.node.pending == s.pending && o.node.electionDeadline == env.now + env.timeout && o.node.epoch == s.epoch
  {
  }

  lemma TallyIs(s: Node, v: NodeId, p: Payload, env: Env)
    requires p.RequestVote?
    ensures FirstBallot.Tally(s, v, p, env, env) ==
      HandleVoteResponse(s, v, VoteResponse(p.term, true, v, env.battery), env)
  {
  }

  // ----------------------------------------------------- reports and entries

  /** The leader has appended an entry of its term and epoch. */
  predicate Grown(s: Node, s': Node) {
    && |s'.log| == |s.log| + 1 && s'.log[..|s.log|] == s.log
    && s'.log[|s.log|].index == |s.log| + 1 && s'.log[|s.log|].term == s.term && s'.log[|s.log|].epoch == s.epoch
    && s' == s.(log := s'.log, lastSensor := s'.lastSensor)
  }

  /** A leader takes a sensor report that its filter lets through, and sends the
      new entry to every peer. */
  lemma Reported(t: Trace, n: NodeId, now: real) returns (t': Trace)
    requires Valid(t) && n in Now(t).nodes && Now(t).protocol != EchoD && Now(t).nodes[n].role == Leader
    ensures Valid(t') && Extends(t, t') && OnlyMoved(Now(t), Now(t'), {n})
    ensures Grown(Now(t).nodes[n], Now(t').nodes[n])
    ensures forall p :: p in OthersOf(n) ==> AppendTo(Now(t').nodes[n], p) in Now(t').msgs
  {
    hide IsRun, HandleSensor, AppendTo;
    var s := Now(t).nodes[n];
    var p := Unfiltered(s, At(now, 100));
    t' := Walk(t, LeafReport(n, At(now, 100), p));
  }

  lemma Unfiltered(s: Node, env: Env) returns (p: Payload)
    requires s.protocol != EchoD && s.role == Leader
    ensures p.SensorData? && Grown(s, HandleSensor(s, p, env).node)
    ensures forall q :: q in s.peers ==> AppendTo(HandleSensor(s, p, env).node, q) in HandleSensor(s, p, env).sent
  {
    hide Heartbeats, Filtered, AppendTo;
    p := NewValue(s);
    var s1 := if s.protocol == Raft then s else s.(lastSensor := s.lastSensor[SensorKey(p) := p.value]);
    var o := HandleSensor(s, p, env);
    assert o.sent == Heartbeats(o.node);
    forall q | q in s.peers ensures AppendTo(o.node, q) in o.sent {
      CatchUp.BeatSent(o.node, q);
    }
  }

  /** Some value is far enough from any earlier one. */
  lemma NewValue(s: Node) returns (p: Payload)
    ensures p.SensorData? && !Filtered(s, p)
  {
    p := SensorData("temperature", 20.0, "leaf-0");
    if SensorKey(p) in s.lastSensor {
      var prev := s.lastSensor[SensorKey(p)];
      p := SensorData("temperature", prev + Max(Abs(prev), 0.000000001), "leaf-0");
    }
  }

  /** The node hears a leader of a newer term, or of its own as a follower. */
  predicate Listens(s: Node, m: Packet) {
    && m.payload.AppendEntries? && s.role != Observer && s.protocol != EchoD
    && (m.payload.term > s.term || (m.payload.term == s.term && !Leads(s.role)))
    && m.payload.leaderCommit <= s.commit
  }

  /** The node is a follower of term t whose commit index has not moved. */
  predicate Listened(s: Node, s': Node, t: nat, now: real) {
    && s'.role == Follower && s'.term == t && s'.electionDeadline == now + 1.2
    && s'.pending == s.pending && s'.commit == s.commit
  }

  lemma Listening(s: Node, m: Packet, now: real)
    requires Listens(s, m)
    ensures Listened(s, HandleAppendEntries(s, m.src, m.payload, At(now, 100)).node, m.payload.term, now)
  {
    hide StepDown, AcceptOrReject, Ledger.Still;
    var p, env := m.payload, At(now, 100);
    Refinement.StepDownShape(s, p.term, env);
    Ledger.AppendStill(s, m.src, p, env);
    StillPending(s, HandleAppendEntries(s, m.src, p, env).node);
    var s1 := if p.term > s.term then StepDown(s, p.term, env) else s;
    ListeningHere(s1, m, env);
  }

  lemma StillPending(s: Node, s': Node)
    requires Ledger.Still(s.(log := s'.log), s')
    ensures s'.pending == s.pending
  {
  }

  lemma ListeningHere(s: Node, m: Packet, env: Env)
    requires m.payload.AppendEntries? && s.role in {Follower, Candidate} && s.protocol != EchoD
    requires m.payload.leaderCommit <= s.commit
    ensures var s' := AcceptOrReject(s, m.src, m.payload, env).node;
      s'.role == Follower && s'.term == s.term && s'.commit == s.commit && s'.electionDeadline == env.now + env.timeout
  {
    hide StoreAll;
    Effects.StoreAllEffect(ResetElectionTimer(s, env).(leader := Some(m.payload.leader),
      role := Follower), m.payload.entries);
  }

  /** A node hears an AppendEntries packet without entries: its log stays, and
      if it passes the check it acks all of it. */
  lemma HearsEmpty(t: Trace, m: Packet, f: NodeId, now: real) returns (t': Trace)
    requires Valid(t) && f in Now(t).nodes && m in Now(t).msgs && Addressed(m, f)
    requires Listens(Now(t).nodes[f], m) && m.payload.entries == []
    ensures Valid(t') && Extends(t, t') && OnlyMoved(Now(t), Now(t'), {f})
    ensures var r, r', p := Now(t).nodes[f], Now(t').nodes[f], m.payload;
      && Listened(r, r', p.term, now) && r'.log == r.log
      && (PrevMatches(r.log, p.prevIndex, p.prevTerm) ==>
            Packet(f, To(m.src), AppendResponse(p.term, true, f, |r.log|, 100, p.prevIndex)) in Now(t').msgs)
  {
    hide IsRun, HandleAppendEntries, Listened;
    var r, env := Now(t).nodes[f], At(now, 100);
    Listening(r, m, now);
    t' := Walk(t, Deliver(f, env, m));
    EmptyKeepsLog(r, m, env);
    if PrevMatches(r.log, m.payload.prevIndex, m.payload.prevTerm) {
      Following.AckOf(r, m, env);
      var sent := HandleAppendEntries(r, m.src, m.payload, env).sent;
      assert sent[|sent| - 1] in Elements(sent);
    }
  }

  lemma EmptyKeepsLog(s: Node, m: Packet, env: Env)
    requires m.payload.AppendEntries? && m.payload.entries == []
    ensures HandleAppendEntries(s, m.src, m.payload, env).node.log == s.log
  {
    hide StepDown;
    Refinement.StepDownShape(s, m.payload.term, env);
  }

  /** A follower with an empty log takes a leader's first entry and acks it. */
  lemma HearsFirst(t: Trace, m: Packet, f: NodeId, now: real) returns (t': Trace)
    requires Valid(t) && f in Now(t).nodes && m in Now(t).msgs && Addressed(m, f)
    requires Listens(Now(t).nodes[f], m) && Now(t).nodes[f].log == []
    requires m.payload.prevIndex == 0 && |m.payload.entries| == 1 && m.payload.entries[0].index == 1
    ensures Valid(t') && Extends(t, t') && OnlyMoved(Now(t), Now(t'), {f})
    ensures Listened(Now(t).nodes[f], Now(t').nodes[f], m.payload.term, now)
    ensures Now(t').nodes[f].log == m.payload.entries
    ensures Packet(f, To(m.src), AppendResponse(m.payload.term, true, f, 1, 100, 1)) in Now(t').msgs
  {
    hide IsRun, HandleAppendEntries, Listened;
    var r, env := Now(t).nodes[f], At(now, 100);
    Listening(r, m, now);
    t' := Walk(t, Deliver(f, env, m));
    FirstStored(r, m, env);
    Following.AckOf(r, m, env);
    var sent := HandleAppendEntries(r, m.src, m.payload, env).sent;
    assert sent[|sent| - 1] in Elements(sent);
  }

  lemma FirstStored(s: Node, m: Packet, env: Env)
    requires m.payload.AppendEntries? && m.payload.term >= s.term && s.log == []
    requires m.payload.prevIndex == 0 && |m.payload.entries| == 1 && m.payload.entries[0].index == 1
    ensures HandleAppendEntries(s, m.src, m.payload, env).node.log == m.payload.entries
  {
    hide StepDown, AcceptOrReject;
    Refinement.StepDownShape(s, m.payload.term, env);
    FirstStoredHere(if m.payload.term > s.term then StepDown(s, m.payload.term, env) else s, m, env);
  }

  lemma FirstStoredHere(s: Node, m: Packet, env: Env)
    requires m.payload.AppendEntries? && s.log == [] && m.payload.prevIndex == 0
    requires |m.payload.entries| == 1 && m.payload.entries[0].index == 1
    ensures AcceptOrReject(s, m.src, m.payload, env).node.log == m.payload.entries
  {
    hide NewElectionDeadline;
    var entries := m.payload.entries;
    var s1 := ResetElectionTimer(s, env).(leader := Some(m.payload.leader),
      role := if s.role == Candidate then Follower else s.role);
    assert entries[1..] == [] && [] + [entries[0]] == entries;
    assert StoreAll(s1, entries).node == Store(s1, entries[0]).node;
  }

  // -------------------------------------------------------------------- acks

  /** With three nodes one ack of the leader's whole log commits it, if it ends
      in an entry of the leader's term. */
  lemma AckCommits(s: Node, f: NodeId, p: Payload, env: Env)
    requires s.role == Leader && s.commit < |s.log| && LastTerm(s.log) == s.term
    requires f in s.peers && |s.peers| == 2
    requires p.AppendResponse? && p.success && p.term <= s.term && p.matchIndex >= |s.log|
    ensures var s' := HandleAppendResponse(s, f, p, env);
      s'.commit == |s.log| && s'.log == s.log && s'.term == s.term && s'.role == Leader
  {
    hide CommitPoint;
    var s1 := s.(peerBatteries := s.peerBatteries[f := p.battery],
                 nextIndex := s.nextIndex[f := (p.matchIndex + 1) as pos],
                   matchIndex := s.matchIndex[f := p.matchIndex]);
    WholeCommits(s1, f);
  }

  lemma WholeCommits(s: Node, f: NodeId)
    requires f in s.peers && |s.peers| == 2 && Get(s.matchIndex, f, 0) >= |s.log|
    requires s.commit < |s.log| && LastTerm(s.log) == s.term
    ensures AdvanceCommit(s) == s.(commit := |s.log|)
  {
    hide CommitPoint;
    var n := |s.log|;
    assert s.peers[..1] == [s.peers[0]] && s.peers[..1][..0] == [];
    assert CountMatches(s.peers[..1], s.matchIndex, n) == if Get(s.matchIndex, s.peers[0], 0) >= n then 1 else 0;
    assert CountMatches(s.peers, s.matchIndex, n) >= 1;
    assert Committable(s, n);
    Replication.CommitPointIsGreatest(s, n);
  }

  /** The leader counts the ack p of f and commits its whole log. */
  lemma Counts(t: Trace, l: NodeId, f: NodeId, p: Payload, now: real) returns (t': Trace)
    requires Valid(t) && l in Now(t).nodes && f in Now(t).nodes && l != f
    requires var s := Now(t).nodes[l]; s.role == Leader && s.commit < |s.log| && LastTerm(s.log) == s.term
    requires p.AppendResponse? && p.success && p.term <= Now(t).nodes[l].term && p.matchIndex >= |Now(t).nodes[l].log|
    requires Packet(f, To(l), p) in Now(t).msgs
    ensures Valid(t') && t'.run[0] == t.run[0] && OnlyMoved(Now(t), Now(t'), {l})
    ensures p.term == Now(t).nodes[l].term && Keeps(t, Current) ==> Keeps(t', Current)
    ensures p.matchIndex <= p.covered && Keeps(t, Exact) ==> Keeps(t', Exact)
    ensures var s, s' := Now(t).nodes[l], Now(t').nodes[l];
      s'.commit == |s.log| && s'.log == s.log && s'.term == s.term && s'.role == Leader
  {
    hide IsRun, HandleAppendResponse, Keeps;
    var s, env := Now(t).nodes[l], At(now, 100);
    AckCommits(s, f, p, env);
    t' := Take(t, Deliver(l, env, Packet(f, To(l), p)));
  }

  // ------------------------------------------------------------------ rounds

  /** Accepting l's log does not leave f with more. */
  predicate NoSurplus(l: Log, f: Log) {
    l <= f ==> |f| == |l|
  }

  lemma TakeRound(t: Trace, l: NodeId, f: NodeId, now: real) returns (t': Trace)
    requires Valid(t) && l in Now(t).nodes && f in Now(t).nodes && CatchUp.Paired(Now(t).nodes[l], Now(t).nodes[f])
    requires now - Now(t).nodes[l].lastPing >= RAFT_HEARTBEAT_INTERVAL
    ensures Valid(t') && t'.run[0] == t.run[0] && OnlyMoved(Now(t), Now(t'), {l, f})
    ensures var (s, r) := CatchUp.Round(Now(t).nodes[l], Now(t).nodes[f], At(now, 100));
      Now(t').nodes[l] == s && Now(t').nodes[f] == r
    ensures Packet(f, To(l), CatchUp.Ack(Now(t).nodes[l], Now(t).nodes[f], At(now, 100))) in Now(t').msgs
    ensures Keeps(t, Current) ==> Keeps(t', Current)
    ensures Keeps(t, Exact) && NoSurplus(Now(t).nodes[l].log, Now(t).nodes[f].log) ==> Keeps(t', Exact)
  {
    hide IsRun, Valid, Keeps, Apply, Enabled, CatchUp.Paired, CatchUp.Round, CatchUp.Ack;
    Members(t);
    var c, env := Now(t), At(now, 100);
    TrioConfigured(c);
    CatchUp.RoundIsThreeSteps(c, l, f, env);
    BeatKeepsTerm(c, l, f, env);
    assert l != f by { CatchUp.PairedBasics(c.nodes[l], c.nodes[f]); }
    RoundAck(c.nodes[l], c.nodes[f], env);
    t' := TakeThree(t, l, f, AppendTo(c.nodes[l], f), Packet(f, To(l), CatchUp.Ack(c.nodes[l], c.nodes[f], env)), env);
    Members(t');
  }

  lemma BeatKeepsTerm(c: Cluster, l: NodeId, f: NodeId, env: Env)
    requires Trio(c) && l in c.nodes && f in c.nodes && CatchUp.Paired(c.nodes[l], c.nodes[f])
    requires Enabled(c, TimerTick(l, env)) && env.now - c.nodes[l].lastPing >= RAFT_HEARTBEAT_INTERVAL
    ensures Then(c, TimerTick(l, env)).nodes[l].term == c.nodes[l].term
    ensures AppendTo(c.nodes[l], f).payload.AppendEntries?
  {
    hide Tick, CatchUp.Paired;
    CatchUp.PairedBasics(c.nodes[l], c.nodes[f]);
    CatchUp.BeatShape(c.nodes[l], f, env);
  }

  /** A successful ack of a round is of the leader's term, and exact if there is
      no surplus. */
  lemma RoundAck(l: Node, f: Node, env: Env)
    requires CatchUp.Paired(l, f)
    ensures var p := CatchUp.Ack(l, f, env);
      p.AppendResponse? && (p.success ==> p.term == l.term && (NoSurplus(l.log, f.log) ==> p.matchIndex <= p.covered))
  {
    hide CatchUp.Paired, CatchUp.Ack, Following.Passes, AppendTo;
    CatchUp.BeatIsAppend(l, f.id);
    if Following.Passes(f, AppendTo(l, f.id).payload) {
      CatchUp.AcceptedAnswer(l, f, env);
    } else {
      CatchUp.RejectedAnswer(l, f, env);
    }
  }

  lemma TakeThree(t: Trace, l: NodeId, f: NodeId, m: Packet, r: Packet, env: Env) returns (t': Trace)
    requires Valid(t) && l in Now(t).nodes && l != f && m.payload.AppendEntries? && r.payload.AppendResponse?
    requires var c := Now(t);
      var c1 := Then(c, TimerTick(l, env));
      var c2 := Then(c1, Deliver(f, env, m));
      && Enabled(c, TimerTick(l, env)) && Enabled(c1, Deliver(f, env, m)) && Enabled(c2, Deliver(l, env, r))
      && c1.nodes[l].term == c.nodes[l].term
    ensures Valid(t') && t'.run[0] == t.run[0]
    ensures Now(t') == Then(Then(Then(Now(t), TimerTick(l, env)), Deliver(f, env, m)), Deliver(l, env, r))
    ensures Now(t').protocol == Now(t).protocol && Now(t).msgs <= Now(t').msgs && r in Now(t').msgs
    ensures (r.payload.success ==> r.payload.term == Now(t).nodes[l].term) && Keeps(t, Current) ==> Keeps(t', Current)
    ensures (r.payload.success ==> r.payload.matchIndex <= r.payload.covered) && Keeps(t, Exact) ==> Keeps(t', Exact)
  {
    hide IsRun, Fire, Keeps, Trio;
    t' := Walk(t, TimerTick(l, env));
    t' := Walk(t', Deliver(f, env, m));
    t' := Take(t', Deliver(l, env, r));
  }

  /** The leader has brought f up to its own log, and has committed all of it if
      it ends in an entry of its own term. */
  predicate BroughtUp(s: Node, r: Node, s': Node, r': Node) {
    && s'.log == s.log && s'.term == s.term && s'.role == Leader && s'.pending == s.pending
    && s.log <= r'.log && r'.log == Moves.Merge(r.log, s.log)
    && (s.log != [] && s.commit < |s.log| && LastTerm(s.log) == s.term ==> s'.commit == |s.log|)
    && ((forall k :: 0 <= k < |s.log| ==> s.log[k].term != s.term) ==> s'.commit == s.commit)
  }

  /** The ack that f sent when it accepted. */
  function LastAck(s: Node, r': Node): Payload {
    AppendResponse(s.term, true, r'.id, |r'.log|, 100, |s.log|)
  }

  ghost predicate MayBring(c: Cluster, l: NodeId, f: NodeId, now: real) {
    && Trio(c) && l in c.nodes && f in c.nodes
    && CatchUp.Paired(c.nodes[l], c.nodes[f]) && now - c.nodes[l].lastPing >= RAFT_HEARTBEAT_INTERVAL
    && c.nodes[l].commit <= c.nodes[f].commit
    && (c.nodes[f].term < c.nodes[l].term || !Leads(c.nodes[f].role)) && c.nodes[f].role != Observer
    && c.nodes[f].protocol == Raft
  }

  /** Heartbeats to one of two followers, until it accepts at time `last`. */
  lemma BringUp(t: Trace, l: NodeId, f: NodeId, now: real) returns (t': Trace, last: real)
    requires Valid(t) && MayBring(Now(t), l, f, now)
    ensures Valid(t') && t'.run[0] == t.run[0] && OnlyMoved(Now(t), Now(t'), {l, f}) && last >= now
    ensures Keeps(t, Current) ==> Keeps(t', Current)
    ensures Keeps(t, Exact) && NoSurplus(Now(t).nodes[l].log, Now(t).nodes[f].log) ==> Keeps(t', Exact)
    ensures BroughtUp(Now(t).nodes[l], Now(t).nodes[f], Now(t').nodes[l], Now(t').nodes[f])
    ensures Listened(Now(t).nodes[f], Now(t').nodes[f], Now(t).nodes[l].term, last)
    ensures Packet(f, To(l), LastAck(Now(t).nodes[l], Now(t').nodes[f])) in Now(t').msgs
    decreases CatchUp.Next(Now(t).nodes[l], f)
  {
    hide Valid, Keeps, CatchUp.Paired, CatchUp.Round, CatchUp.Accepted, CatchUp.Ack, BroughtUp, AdvanceCommit,
      OnlyMoved, Listened, LastAck;
    var s, r, env := Now(t).nodes[l], Now(t).nodes[f], At(now, 100);
    assert l != f && s.id == l && r.id == f && |s.peers| == 2 && f in s.peers by { CatchUp.PairedBasics(s, r); }
    t' := TakeRound(t, l, f, now);
    last := now;
    SameMembers(Now(t), Now(t'), {l, f});
    BringListens(s, r, now);
    var s1, r1 := Now(t').nodes[l], Now(t').nodes[f];
    if CatchUp.Accepted(s, r, env) {
      BringAccepted(s, r, env, s1, r1);
    } else {
      CatchUp.RejectedRound(s, r, env);
      var t1 := t';
      StillMayBring(Now(t), Now(t1), l, f, now, env);
      t', last := BringUp(t1, l, f, now + 1.0);
      SameMembers(Now(t1), Now(t'), {l, f});
      MovedTwice(Now(t), Now(t1), Now(t'), {l, f});
      SameUp(s, r, s1, r1, Now(t').nodes[l], Now(t').nodes[f], now, last);
    }
  }

  lemma BringListens(s: Node, r: Node, now: real)
    requires CatchUp.Paired(s, r) && now - s.lastPing >= RAFT_HEARTBEAT_INTERVAL
    requires s.commit <= r.commit && (r.term < s.term || !Leads(r.role)) && r.role != Observer && r.protocol == Raft
    ensures Listened(r, CatchUp.Round(s, r, At(now, 100)).1, s.term, now)
    ensures CatchUp.Round(s, r, At(now, 100)).1.id == r.id
  {
    hide CatchUp.Paired, HandleAppendEntries, Tick, Listened, AppendTo, CatchUp.Ack;
    CatchUp.PairedBasics(s, r);
    CatchUp.BeatIsAppend(s, r.id);
    BeatCommit(s, r.id);
    Listening(r, AppendTo(s, r.id), now);
    CatchUp.SameAnswer(s, r, At(now, 100));
    AnswerId(s, r, At(now, 100));
  }

  lemma BeatCommit(s: Node, f: NodeId)
    ensures var p := AppendTo(s, f).payload; p.AppendEntries? && p.leaderCommit == s.commit && p.term == s.term
  {
  }

  lemma AnswerId(s: Node, r: Node, env: Env)
    requires CatchUp.Paired(s, r)
    ensures CatchUp.Answer(s, r, env).node.id == r.id
  {
    hide CatchUp.Paired, CatchUp.Answer, Following.Passes, AppendTo;
    CatchUp.BeatIsAppend(s, r.id);
    if Following.Passes(r, AppendTo(s, r.id).payload) {
      CatchUp.AcceptedAnswer(s, r, env);
    } else {
      CatchUp.RejectedAnswer(s, r, env);
    }
  }

  lemma BringAccepted(s: Node, r: Node, env: Env, s': Node, r': Node)
    requires CatchUp.Paired(s, r) && env.now - s.lastPing >= RAFT_HEARTBEAT_INTERVAL && CatchUp.Accepted(s, r, env)
    requires (s', r') == CatchUp.Round(s, r, env) && r.id in s.peers && |s.peers| == 2 && r'.id == r.id
    requires env.battery == 100
    ensures BroughtUp(s, r, s', r') && CatchUp.Ack(s, r, env) == LastAck(s, r')
  {
    hide CatchUp.Paired, CatchUp.Round, AdvanceCommit, Moves.Merge;
    CatchUp.AcceptedRound(s, r, env);
    AcceptedAck(s, r, env);
    var s1 := s.(lastPing := env.now, peerBatteries := s.peerBatteries[r.id := env.battery],
                 nextIndex := s.nextIndex[r.id := (|r'.log| + 1) as pos], matchIndex := s.matchIndex[r.id := |r'.log|]);
    if s.log != [] && s.commit < |s.log| && LastTerm(s.log) == s.term { WholeCommits(s1, r.id); }
    OldCommits(s1);
  }

  lemma AcceptedAck(s: Node, r: Node, env: Env)
    requires CatchUp.Paired(s, r) && CatchUp.Accepted(s, r, env)
    ensures CatchUp.Ack(s, r, env) ==
      AppendResponse(s.term, true, r.id, |Moves.Merge(r.log, s.log)|, env.battery, |s.log|)
  {
    hide CatchUp.Paired, CatchUp.Ack, CatchUp.Answer, Following.Passes, AppendTo, Moves.Merge;
    CatchUp.BeatIsAppend(s, r.id);
    if Following.Passes(r, AppendTo(s, r.id).payload) {
      CatchUp.AcceptedAnswer(s, r, env);
    } else {
      CatchUp.RejectedAnswer(s, r, env);
    }
  }

  /** Without an entry of its own term a leader commits nothing. */
  lemma OldCommits(s: Node)
    ensures AdvanceCommit(s) == s.(commit := AdvanceCommit(s).commit)
    ensures (forall k :: 0 <= k < |s.log| ==> s.log[k].term != s.term) ==> AdvanceCommit(s).commit == s.commit
  {
    hide CommitPoint;
    Refinement.CommitPointChoice(s, |s.log|);
  }

  lemma StillMayBring(c: Cluster, c': Cluster, l: NodeId, f: NodeId, now: real, env: Env)
    requires MayBring(c, l, f, now) && OnlyMoved(c, c', {l, f}) && env == At(now, 100)
    requires (c'.nodes[l], c'.nodes[f]) == CatchUp.Round(c.nodes[l], c.nodes[f], env)
    requires !CatchUp.Accepted(c.nodes[l], c.nodes[f], env)
    requires Listened(c.nodes[f], c'.nodes[f], c.nodes[l].term, now)
    ensures MayBring(c', l, f, now + 1.0)
  {
    hide CatchUp.Paired, CatchUp.Round, CatchUp.Accepted;
    CatchUp.RejectedRound(c.nodes[l], c.nodes[f], env);
  }

  lemma MovedTwice(c: Cluster, c1: Cluster, c2: Cluster, xs: set<NodeId>)
    requires OnlyMoved(c, c1, xs) && OnlyMoved(c1, c2, xs)
    ensures OnlyMoved(c, c2, xs)
  {
  }

  lemma SameUp(s: Node, r: Node, s1: Node, r1: Node, s2: Node, r2: Node, now: real, last: real)
    requires s1.log == s.log && s1.term == s.term && s1.commit == s.commit && s1.pending == s.pending && r1.log == r.log
    requires Listened(r, r1, s.term, now) && BroughtUp(s1, r1, s2, r2) && Listened(r1, r2, s1.term, last)
    ensures BroughtUp(s, r, s2, r2) && Listened(r, r2, s.term, last) && LastAck(s1, r2) == LastAck(s, r2)
  {
  }
}
