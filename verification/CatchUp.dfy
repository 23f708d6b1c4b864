/** Catch-up terminates: a `raft` leader that keeps heartbeating one follower is
    accepted within next_index rounds, whatever the follower's log was. */
module CatchUp {
  import opened Types
  import opened Handlers
  import opened Clusters
  import opened Invariants
  import opened Moves
  import opened Replication
  import Ledger
  import Refinement
  import Following
  import Safety

  function Next(l: Node, f: NodeId): pos { Get(l.nextIndex, f, 1) }

  /** The follower's answer to the leader's heartbeat. */
  function Answer(l: Node, f: Node, env: Env): Out {
    HandleAppendEntries(f, l.id, AppendTo(l, f.id).payload, env)
  }

  /** The payload of the last packet of the answer, the ack itself. */
  function Ack(l: Node, f: Node, env: Env): Payload {
    var sent := Answer(l, f, env).sent;
    if sent == [] then Ping(f) else sent[|sent| - 1].payload
  }

  predicate Accepted(l: Node, f: Node, env: Env) {
    Ack(l, f, env).AppendResponse? && Ack(l, f, env).success
  }

  /** A round: the leader's timer fires, the follower handles the heartbeat, and
      the leader handles the ack. */
  function Round(l: Node, f: Node, env: Env): (Node, Node) {
    var l1 := Tick(l, env).node;
    (if Ack(l1, f, env).AppendResponse? then HandleAppendResponse(l1, f.id, Ack(l1, f, env), env) else l1,
     Answer(l1, f, env).node)
  }

  function Rounds(l: Node, f: Node, envs: seq<Env>): (Node, Node)
    decreases |envs|
  {
    if envs == [] then (l, f)
    else
      var (l1, f1) := Round(l, f, envs[0]);
      Rounds(l1, f1, envs[1..])
  }

  ghost predicate Positive(log: Log) {
    forall i :: 0 <= i < |log| ==> log[i].term >= 1
  }

  /** A `raft` leader and a follower that no newer term has reached. */
  ghost predicate Paired(l: Node, f: Node) {
    && l.protocol == Raft && l.role == Leader && f.id != l.id && f.term <= l.term
    && Agree(f.log, l.log) && Indexed(l.log) && Positive(l.log) && Positive(f.log)
  }

  /** Each timer reading is at least a heartbeat interval after the last. */
  ghost predicate Spaced(l: Node, envs: seq<Env>) {
    && (envs != [] ==> envs[0].now - l.lastPing >= RAFT_HEARTBEAT_INTERVAL)
    && forall i :: 0 < i < |envs| ==> envs[i].now - envs[i - 1].now >= RAFT_HEARTBEAT_INTERVAL
  }

  // ------------------------------------------------------------- one round

  lemma BeatShape(l: Node, f: NodeId, env: Env)
    requires l.protocol == Raft && l.role == Leader && env.now - l.lastPing >= RAFT_HEARTBEAT_INTERVAL
    ensures Tick(l, env) == Out(l.(lastPing := env.now), Heartbeats(l))
    ensures AppendTo(l.(lastPing := env.now), f) == AppendTo(l, f)
  {
    hide Heartbeats, FlushIfDue, HandoffIfLow, SendPing, StartElection;
  }

  lemma BeatIsAppend(l: Node, f: NodeId)
    ensures var m := AppendTo(l, f); m.src == l.id && m.dst == To(f) && m.payload.AppendEntries?
  {
  }

  /** What the heartbeat carries: a suffix of the whole log, or nothing. */
  lemma BeatCarries(l: Node, f: NodeId)
    requires Positive(l.log)
    ensures var p := AppendTo(l, f).payload;
      && p.AppendEntries? && p.term == l.term && p.prevIndex == Next(l, f) - 1
      && (if p.prevIndex <= |l.log| then Covered(p) == |l.log| && Carries(p, l.log) else Overshoot(p))
  {
  }

  lemma PassesIff(l: Node, f: Node)
    requires Paired(l, f)
    ensures var p := AppendTo(l, f.id).payload;
      && (Following.Passes(f, p) ==> p.prevIndex <= |l.log| && f.log[..p.prevIndex] == l.log[..p.prevIndex])
      && (Next(l, f.id) == 1 ==> Following.Passes(f, p))
  {
    BeatCarries(l, f.id);
    var p := AppendTo(l, f.id).payload;
    if Following.Passes(f, p) && p.prevIndex > 0 {
      assert f.log[p.prevIndex - 1].term >= 1;
      assert p.prevIndex <= |l.log| && f.log[p.prevIndex - 1].term == l.log[p.prevIndex - 1].term;
    }
  }

  lemma RejectedAnswer(l: Node, f: Node, env: Env)
    requires Paired(l, f) && !Following.Passes(f, AppendTo(l, f.id).payload)
    ensures var o := Answer(l, f, env);
      && o.node.id == f.id && o.node.log == f.log && o.node.term == l.term
      && Ack(l, f, env) == AppendResponse(l.term, false, f.id, 0, env.battery, 0)
      && o.sent == [Packet(f.id, To(l.id), Ack(l, f, env))]
  {
    hide StepDown, AcceptOrReject, Agree, AppendTo;
    BeatIsAppend(l, f.id);
    BeatCarries(l, f.id);
    Refinement.StepDownShape(f, l.term, env);
    Following.RejectedHere(if l.term > f.term then StepDown(f, l.term, env) else f, AppendTo(l, f.id), env);
  }

  lemma AcceptedAnswer(l: Node, f: Node, env: Env)
    requires Paired(l, f) && Following.Passes(f, AppendTo(l, f.id).payload)
    ensures var o := Answer(l, f, env);
      && o.node.id == f.id && o.node.log == Merge(f.log, l.log) && o.node.term == l.term
      && Ack(l, f, env) == AppendResponse(l.term, true, f.id, |o.node.log|, env.battery, |l.log|)
  {
    hide AcceptOrReject, Agree, Merge, Indexed;
    var m := AppendTo(l, f.id);
    BeatCarries(l, f.id);
    PassesIff(l, f);
    Refinement.StepDownShape(f, l.term, env);
    var f1 := if l.term > f.term then StepDown(f, l.term, env) else f;
    AcceptedMerge(l, f1, m, env);
    Following.AckOfAcceptance(f1, m, env);
  }

  lemma AcceptedMerge(l: Node, f: Node, m: Packet, env: Env)
    requires m.payload.AppendEntries? && PrevMatches(f.log, m.payload.prevIndex, m.payload.prevTerm)
    requires m.payload.prevIndex <= |l.log| && f.log[..m.payload.prevIndex] == l.log[..m.payload.prevIndex]
    requires Carries(m.payload, l.log) && Agree(f.log, l.log) && Indexed(l.log)
    ensures var s' := AcceptOrReject(f, m.src, m.payload, env).node; s'.log == Merge(f.log, l.log) && s'.id == f.id
  {
    hide StoreAll, NewElectionDeadline, Agree, Merge, Indexed;
    var f1 := ResetElectionTimer(f, env).(leader := Some(m.payload.leader),
      role := if f.role == Candidate then Follower else f.role);
    assert l.log[..m.payload.prevIndex] <= f1.log;
    StoreAllMerges(f1, l.log, m.payload.prevIndex);
  }

  /** A rejected round only moves next_index one back. */
  lemma RejectedRound(l: Node, f: Node, env: Env)
    requires Paired(l, f) && env.now - l.lastPing >= RAFT_HEARTBEAT_INTERVAL && !Accepted(l, f, env)
    ensures var (l', f') := Round(l, f, env);
      && Paired(l', f') && l'.term == l.term && l'.commit == l.commit && l'.log == l.log && f'.log == f.log
      && l'.pending == l.pending && l'.id == l.id && f'.id == f.id
      && l'.lastPing == env.now && Next(l, f.id) > 1 && Next(l', f.id) == Next(l, f.id) - 1
  {
    hide Answer, Ack, Tick, Agree, Indexed, AppendTo, Following.Passes;
    BeatShape(l, f.id, env);
    SameAnswer(l, f, env);
    PassesIff(l, f);
    BeatIsAppend(l, f.id);
    if Following.Passes(f, AppendTo(l, f.id).payload) { AcceptedAnswer(l, f, env); }
    RejectedAnswer(l, f, env);
  }

  lemma SameAnswer(l: Node, f: Node, env: Env)
    requires l.protocol == Raft && l.role == Leader && env.now - l.lastPing >= RAFT_HEARTBEAT_INTERVAL
    ensures Answer(Tick(l, env).node, f, env) == Answer(l, f, env) && Ack(Tick(l, env).node, f, env) == Ack(l, f, env)
  {
    hide HandleAppendEntries, Tick;
    BeatShape(l, f.id, env);
  }

  /** An accepted round leaves the leader's log a prefix of the follower's. */
  lemma AcceptedRound(l: Node, f: Node, env: Env)
    requires Paired(l, f) && env.now - l.lastPing >= RAFT_HEARTBEAT_INTERVAL && Accepted(l, f, env)
    ensures var (l', f') := Round(l, f, env);
      && l'.role == Leader && l'.term == l.term && l'.log == l.log && f'.term == l.term
      && l.log <= f'.log && f'.log == Merge(f.log, l.log)
      && l' == AdvanceCommit(l.(lastPing := env.now, peerBatteries := l.peerBatteries[f.id := env.battery],
                               nextIndex := l.nextIndex[f.id := (|f'.log| + 1) as pos],
                               matchIndex := l.matchIndex[f.id := |f'.log|]))
  {
    hide Answer, Ack, Tick, Agree, Indexed, AppendTo, Following.Passes, CommitPoint;
    BeatShape(l, f.id, env);
    SameAnswer(l, f, env);
    BeatIsAppend(l, f.id);
    if !Following.Passes(f, AppendTo(l, f.id).payload) { RejectedAnswer(l, f, env); }
    AcceptedAnswer(l, f, env);
  }

  // ------------------------------------------------------------ termination

  /** Within next_index rounds, and at most leader log length + 1 rounds after
      an election, a heartbeat is accepted; then the leader's log is a prefix of
      the follower's. */
  lemma {:induction false} CatchUp(l: Node, f: Node, envs: seq<Env>) returns (k: nat)
    requires Paired(l, f) && Spaced(l, envs) && |envs| >= Next(l, f.id)
    ensures k < Next(l, f.id)
    ensures forall j: nat :: j < k ==> !Accepted(Rounds(l, f, envs[..j]).0, Rounds(l, f, envs[..j]).1, envs[j])
    ensures Accepted(Rounds(l, f, envs[..k]).0, Rounds(l, f, envs[..k]).1, envs[k])
    ensures var (l', f') := Rounds(l, f, envs[..k + 1]);
      l'.role == Leader && l'.term == l.term && l'.log == l.log && l.log <= f'.log && f'.log == Merge(f.log, l.log)
    decreases |envs|
  {
    hide Paired, Accepted, Round, Merge;
    if Accepted(l, f, envs[0]) {
      k := 0;
      AcceptedRound(l, f, envs[0]);
      assert envs[..1] == [envs[0]] && envs[..1][1..] == [];
    } else {
      RejectedRound(l, f, envs[0]);
      var (l1, f1) := Round(l, f, envs[0]);
      var rest := envs[1..];
      var i := CatchUp(l1, f1, rest);
      k := i + 1;
      forall j: nat | j < k
        ensures !Accepted(Rounds(l, f, envs[..j]).0, Rounds(l, f, envs[..j]).1, envs[j])
      {
        if j > 0 {
          Unroll(l, f, envs, j);
          assert rest[j - 1] == envs[j];
        }
      }
      Unroll(l, f, envs, k);
      Unroll(l, f, envs, k + 1);
    }
  }

  lemma Unroll(l: Node, f: Node, envs: seq<Env>, j: nat)
    requires 1 <= j <= |envs|
    ensures Rounds(l, f, envs[..j]) ==
      Rounds(Round(l, f, envs[0]).0, Round(l, f, envs[0]).1, envs[1..][..j - 1])
  {
    hide Round;
    assert envs[..j][1..] == envs[1..][..j - 1];
  }

  lemma NextInOffice(s: Node, env: Env, f: NodeId)
    requires f in s.peers && s.protocol == Raft
    ensures Next(BecomeLeader(s, env).node, f) == |s.log| + 1
  {
    hide SetAll, Replicate, ReplicateAll, Heartbeats;
    SetAllAt(s.nextIndex, s.peers, (|s.log| + 1) as pos);
    var s1 := AssertLeadership(AssumeOffice(s, env)).node;
    Ledger.ReplicateAllEntries(s1.(pending := [], lastActivity := Later(env)), s1.pending);
  }

  /** So a newly elected leader's heartbeats are accepted within as many rounds as
      its log was long when it was elected, plus one. */
  lemma CatchUpAfterElection(s: Node, env: Env, f: Node, envs: seq<Env>) returns (k: nat)
    requires f.id in s.peers && s.protocol == Raft && Paired(BecomeLeader(s, env).node, f)
    requires Spaced(BecomeLeader(s, env).node, envs) && |envs| >= |s.log| + 1
    ensures k <= |s.log|
    ensures var l := BecomeLeader(s, env).node;
      && Accepted(Rounds(l, f, envs[..k]).0, Rounds(l, f, envs[..k]).1, envs[k])
      && l.log <= Rounds(l, f, envs[..k + 1]).1.log
  {
    hide BecomeLeader, Paired, Accepted, Rounds;
    NextInOffice(s, env, f.id);
    k := CatchUp(BecomeLeader(s, env).node, f, envs);
  }

  // ------------------------------------------------------ rounds in the cluster

  /** A leader and any node it has not been deposed by, in a reachable state of a
      `raft` cluster, can be caught up. */
  lemma ReachablePair(run: seq<Cluster>, acts: seq<Action>, l: NodeId, f: NodeId)
    requires IsRun(run, acts) && run[0].protocol == Raft
    requires var c := run[|acts|];
      l in c.nodes && f in c.nodes && l != f && c.nodes[l].role == Leader && c.nodes[f].term <= c.nodes[l].term
    ensures Paired(run[|acts|].nodes[l], run[|acts|].nodes[f])
  {
    hide Inv, Grows, IsRun, AdmissibleRun, Sound, Agree, Indexed;
    Safety.RaftRunsQualify(run, acts);
    Following.Lengths(run, acts);
    var hs := Safety.Chronicled(run, acts, false);
    var c, h := run[|acts|], hs[|acts|];
    Refinement.PeersOf(c, h, l, false);
    Refinement.PeersOf(c, h, f, false);
    Refinement.NodeLogSound(c, h, l, false);
    Refinement.NodeLogSound(c, h, f, false);
    SoundPositive(h, c.nodes[l].log, c.nodes[l].term);
    SoundPositive(h, c.nodes[f].log, c.nodes[f].term);
    Refinement.SoundAgree(h, c.nodes[f].log, c.nodes[l].log, c.nodes[f].term, c.nodes[l].term);
  }

  lemma SoundPositive(h: History, log: Log, t: nat)
    requires Sound(h, log, t)
    ensures Positive(log)
  {
  }

  /** A round is three steps of the cluster: timer, heartbeat, ack. */
  lemma RoundIsThreeSteps(c: Cluster, l: NodeId, f: NodeId, env: Env)
    requires Configured(c) && l in c.nodes && f in c.nodes && Paired(c.nodes[l], c.nodes[f])
    requires env.now - c.nodes[l].lastPing >= RAFT_HEARTBEAT_INTERVAL
    ensures var beat := TimerTick(l, env);
      var heard := Deliver(f, env, AppendTo(c.nodes[l], f));
      var ack := Deliver(l, env, Packet(f, To(l), Ack(c.nodes[l], c.nodes[f], env)));
      var c1 := Then(c, beat);
      var c2 := Then(c1, heard);
      var c3 := Then(c2, ack);
      && Enabled(c, beat) && Enabled(c1, heard) && Enabled(c2, ack)
      && c3.nodes == c.nodes[l := Round(c.nodes[l], c.nodes[f], env).0][f := Round(c.nodes[l], c.nodes[f], env).1]
  {
    hide Paired, Tick, HandleAppendEntries, HandleAppendResponse, Heartbeats, AppendTo;
    assert ConfiguredNode(c, l) && ConfiguredNode(c, f);
    var s, r := c.nodes[l], c.nodes[f];
    PairedBasics(s, r);
    BeatShape(s, f, env);
    assert f in Elements(s.peers);
    BeatSent(s, f);
    SameAnswer(s, r, env);
    AckSent(s, r, env);
    var beat := TimerTick(l, env);
    var heard := Deliver(f, env, AppendTo(s, f));
    var ack := Deliver(l, env, Packet(f, To(l), Ack(s, r, env)));
    var c1 := Apply(c, beat);
    assert c1.nodes == c.nodes[l := Tick(s, env).node];
    assert AppendTo(s, f) in Elements(Heartbeats(s));
    BeatIsAppend(s, f);
    var c2 := Apply(c1, heard);
    assert Fire(c1.nodes[f], heard) == Answer(s, r, env);
    assert Packet(f, To(l), Ack(s, r, env)) in Elements(Answer(s, r, env).sent);
    var c3 := Apply(c2, ack);
    assert Fire(c2.nodes[l], ack).node == Round(s, r, env).0;
  }

  lemma PairedBasics(l: Node, f: Node)
    requires Paired(l, f)
    ensures l.protocol == Raft && l.role == Leader && l.id != f.id && f.term <= l.term
  {
  }

  lemma BeatSent(l: Node, f: NodeId)
    requires f in l.peers
    ensures AppendTo(l, f) in Heartbeats(l)
  {
    var i :| 0 <= i < |l.peers| && l.peers[i] == f;
    assert Heartbeats(l)[i] == AppendTo(l, f);
  }

  lemma AckSent(l: Node, f: Node, env: Env)
    requires Paired(l, f)
    ensures Packet(f.id, To(l.id), Ack(l, f, env)) in Answer(l, f, env).sent && Ack(l, f, env).AppendResponse?
  {
    hide AcceptOrReject, Agree, Indexed;
    var m := AppendTo(l, f.id);
    BeatCarries(l, f.id);
    if Following.Passes(f, m.payload) {
      Following.AckOf(f, m, env);
    } else {
      RejectedAnswer(l, f, env);
    }
  }

}
