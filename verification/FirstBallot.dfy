/** Battery-ordered election timeouts: when the best-charged coordinator times
    out first, and that it then wins on the first ballot. */
module FirstBallot {
  import opened Types
  import opened Handlers
  import opened Clusters
  import Energy
  import Ledger
  import Refinement
  import Leadership

  // -------------------------------------------------------------- deadlines

  /** A coordinator with battery a and tie-break s times out before one with
      battery b and tie-break t: a battery point is worth 24 ms. */
  predicate Earlier(a: Battery, s: TieBreak, b: Battery, t: TieBreak) {
    24 * (a - b) > s - t
  }

  /** Which of two echoD timers that were reset together ends first. */
  lemma EarlierDeadline(a: Node, b: Node, envA: Env, envB: Env)
    requires a.protocol == EchoD && b.protocol == EchoD && envA.now == envB.now
    ensures NewElectionDeadline(a, envA) < NewElectionDeadline(b, envB) <==>
      Earlier(envA.battery, a.tie, envB.battery, b.tie)
  {
    assert (1.0 - envA.battery as real / 100.0) * 2.4 == 2.4 - 0.024 * envA.battery as real;
    assert (1.0 - envB.battery as real / 100.0) * 2.4 == 2.4 - 0.024 * envB.battery as real;
  }

  /** "Highest battery always first" holds, whatever the tie-breaks, exactly
      when the lead is at least seven points. */
  lemma SevenPoints(margin: nat)
    requires margin <= 100
    ensures (forall a: Battery, b: Battery, s: TieBreak, t: TieBreak :: a >= b + margin ==>
        Earlier(a, s, b, t)) <==> margin >= 7
  {
    if margin < 7 {
      assert !Earlier(margin, 149, 0, 0);
    }
  }

  // ----------------------------------------------------------------- polling

  /** The node would vote for x, the candidate of request p. */
  ghost predicate Willing(c: Cluster, x: NodeId, v: NodeId, p: Payload)
    requires p.RequestVote?
  {
    && v in c.nodes && v != x
    && var s := c.nodes[v];
    && s.id == v && s.role != Observer && s.term <= p.term
    && (s.term == p.term ==> s.votedFor == None || s.votedFor == Some(x))
    && (s.protocol == Raft || p.battery >= T_LOW)
    && UpToDate(s.log, p.lastIndex, p.lastTerm)
  }

  function Request(x: NodeId, v: NodeId, p: Payload): Packet {
    Packet(x, To(v), p)
  }

  function Grant(x: NodeId, v: NodeId, t: nat, env: Env): Packet {
    Packet(v, To(x), VoteResponse(t, true, v, env.battery))
  }

  /** x's request reaches v and v's grant reaches x. */
  function Visit(c: Cluster, x: NodeId, v: NodeId, p: Payload, env: NodeId -> Env): Cluster
    requires p.RequestVote?
  {
    Then(Then(c, Deliver(v, env(v), Request(x, v, p))), Deliver(x, env(x), Grant(x, v, p.term, env(v))))
  }

  function Poll(c: Cluster, x: NodeId, voters: seq<NodeId>, p: Payload, env: NodeId -> Env): Cluster
    requires p.RequestVote?
  {
    if voters == [] then c
    else Visit(Poll(c, x, voters[..|voters| - 1], p, env), x, voters[|voters| - 1], p, env)
  }

  /** x stands, or already leads, in the term of p. */
  ghost predicate Stands(c: Cluster, x: NodeId, p: Payload)
    requires p.RequestVote?
  {
    x in c.nodes && c.nodes[x].id == x && c.nodes[x].term == p.term && p.candidate == x
    && (c.nodes[x].role == Candidate || c.nodes[x].role == Leader)
  }

  /** The voter grants. */
  lemma VoterGrants(s: Node, x: NodeId, p: Payload, env: Env)
    requires p.RequestVote? && p.candidate == x && s.role != Observer && s.term <= p.term
    requires s.term == p.term ==> s.votedFor == None || s.votedFor == Some(x)
    requires s.protocol == Raft || p.battery >= T_LOW
    requires UpToDate(s.log, p.lastIndex, p.lastTerm)
    ensures var o := HandleRequestVote(s, x, p, env);
      && o.sent == [Packet(s.id, To(x), VoteResponse(p.term, true, s.id, env.battery))]
      && o.node.log == s.log && o.node.term == p.term && o.node.votedFor == Some(x) && o.node.role != Observer
      && o.node.commit == s.commit && o.node.electionDeadline == NewElectionDeadline(s, env)
      && (s.role == Follower ==> o.node.role == Follower)
  {
    hide NewElectionDeadline, StepDown, UpToDate;
    Refinement.StepDownShape(s, p.term, env);
    SameDeadline(s, (if p.term > s.term then StepDown(s, p.term, env) else s).(votedFor := Some(x)), env);
  }

  lemma SameDeadline(s: Node, s': Node, env: Env)
    requires s'.protocol == s.protocol && s'.tie == s.tie
    ensures NewElectionDeadline(s', env) == NewElectionDeadline(s, env)
  {
  }

  /** What a visit does to the candidate. */
  function Tally(s: Node, v: NodeId, p: Payload, envV: Env, env: Env): Out
    requires p.RequestVote?
  {
    HandleVoteResponse(s, v, VoteResponse(p.term, true, v, envV.battery), env)
  }

  lemma VisitNodes(c: Cluster, x: NodeId, v: NodeId, p: Payload, env: NodeId -> Env)
    requires p.RequestVote? && Stands(c, x, p) && Willing(c, x, v, p) && Request(x, v, p) in c.msgs
    ensures var c' := Visit(c, x, v, p, env);
      && c'.nodes == c.nodes[v := HandleRequestVote(c.nodes[v], x, p, env(v)).node]
           [x := Tally(c.nodes[x], v, p, env(v), env(x)).node]
      && c.msgs <= c'.msgs && c'.protocol == c.protocol
  {
    hide HandleRequestVote, HandleVoteResponse, UpToDate;
    var s := c.nodes[v];
    VoterGrants(s, x, p, env(v));
    var ask, reply := Deliver(v, env(v), Request(x, v, p)), Deliver(x, env(x), Grant(x, v, p.term, env(v)));
    var c1 := Apply(c, ask);
    assert Enabled(c, ask) && Fire(s, ask) == HandleRequestVote(s, x, p, env(v));
    assert Grant(x, v, p.term, env(v)) in Elements(HandleRequestVote(s, x, p, env(v)).sent);
    assert Enabled(c1, reply) && c1.nodes[x] == c.nodes[x];
  }

  /** A counted vote makes a leader of a candidate that now has a majority. */
  lemma TallyOutcome(s: Node, v: NodeId, p: Payload, envV: Env, env: Env)
    requires p.RequestVote? && s.term == p.term && (s.role == Candidate || s.role == Leader)
    ensures var s' := Tally(s, v, p, envV, env).node;
      && s'.id == s.id && s'.term == s.term && s'.peers == s.peers
      && (s.role == Leader ==> s'.role == Leader)
      && (s'.role == Leader
          || (s'.role == Candidate && s'.votes.Keys == s.votes.Keys + {v} && !Majority(|s'.votes|, s')))
  {
    hide BecomeLeader;
    var s1 := s.(votes := s.votes[v := envV.battery]);
    Energy.OfficePlain(s1, env);
    OfficePeers(s1, env);
  }

  lemma OfficePeers(s: Node, env: Env)
    ensures BecomeLeader(s, env).node.peers == s.peers
  {
    hide BecomeLeader;
    var created := Ledger.BecomeLeaderBalanced(s, env);
  }

  /** Whoever is still to be asked is as willing as before. */
  lemma StillWilling(c: Cluster, x: NodeId, v: NodeId, w: NodeId, p: Payload, env: NodeId -> Env)
    requires p.RequestVote? && Stands(c, x, p) && Willing(c, x, v, p) && Request(x, v, p) in c.msgs
    requires Willing(c, x, w, p) && w != v
    ensures Willing(Visit(c, x, v, p, env), x, w, p)
  {
    hide HandleRequestVote, HandleVoteResponse, UpToDate, Visit;
    VisitNodes(c, x, v, p, env);
  }

  /** The state of the poll once `asked` have been visited. */
  ghost predicate Polled(c: Cluster, c': Cluster, x: NodeId, asked: seq<NodeId>, p: Payload)
    requires p.RequestVote? && x in c.nodes
  {
    && Stands(c', x, p) && c.msgs <= c'.msgs
    && c'.nodes[x].peers == c.nodes[x].peers
    && (c'.nodes[x].role == Leader
        || (c'.nodes[x].votes.Keys == c.nodes[x].votes.Keys + Elements(asked)
            && (asked != [] ==> !Majority(|c'.nodes[x].votes|, c'.nodes[x]))))
  }

  lemma {:induction false} PollOutcome(c: Cluster, x: NodeId, voters: seq<NodeId>, p: Payload, env: NodeId -> Env)
    requires p.RequestVote? && Stands(c, x, p)
    requires forall v :: v in voters ==> Willing(c, x, v, p) && Request(x, v, p) in c.msgs
    requires forall i, j :: 0 <= i < j < |voters| ==> voters[i] != voters[j]
    ensures Polled(c, Poll(c, x, voters, p, env), x, voters, p)
    ensures forall w :: Willing(c, x, w, p) && w !in voters ==> Willing(Poll(c, x, voters, p, env), x, w, p)
  {
    hide Visit, Willing;
    if voters == [] {
      assert c.nodes[x].votes.Keys == c.nodes[x].votes.Keys + Elements(voters);
    } else {
      var front, v := voters[..|voters| - 1], voters[|voters| - 1];
      PollOutcome(c, x, front, p, env);
      var c1 := Poll(c, x, front, p, env);
      assert Willing(c1, x, v, p);
      VisitPolled(c, c1, x, front, v, p, env);
      assert voters == front + [v];
      forall w | Willing(c, x, w, p) && w !in voters ensures Willing(Poll(c, x, voters, p, env), x, w, p) {
        StillWilling(c1, x, v, w, p, env);
      }
    }
  }

  lemma OneMore(front: seq<NodeId>, v: NodeId)
    ensures Elements(front + [v]) == Elements(front) + {v}
  {
  }

  lemma VisitPolled(c: Cluster, c1: Cluster, x: NodeId, front: seq<NodeId>, v: NodeId, p: Payload, env: NodeId -> Env)
    requires p.RequestVote? && x in c.nodes && Polled(c, c1, x, front, p)
    requires Willing(c1, x, v, p) && Request(x, v, p) in c1.msgs
    ensures Polled(c, Visit(c1, x, v, p, env), x, front + [v], p)
  {
    hide Visit, Willing, Tally, HandleRequestVote, Elements;
    VisitNodes(c1, x, v, p, env);
    TallyOutcome(c1.nodes[x], v, p, env(v), env(x));
    OneMore(front, v);
    assert c.nodes[x].votes.Keys + (Elements(front) + {v}) == c.nodes[x].votes.Keys + Elements(front) + {v};
  }

  // ------------------------------------------------------------ first ballot

  /** x's timer fires and its requests and the voters' grants are delivered. */
  function Ballot(c: Cluster, x: NodeId, voters: seq<NodeId>, env: NodeId -> Env): Cluster
    requires x in c.nodes
  {
    Poll(Then(c, TimerTick(x, env(x))), x, voters, VoteRequest(StartElection(c.nodes[x], env(x)).node, env(x)), env)
  }

  predicate LeadsTerm(c: Cluster, x: NodeId, t: nat) {
    x in c.nodes && c.nodes[x].role == Leader && c.nodes[x].term == t
  }

  /** A voter that is awake and has neither a newer term nor a better log. */
  ghost predicate Elector(c: Cluster, x: NodeId, v: NodeId)
    requires x in c.nodes
  {
    && v in c.nodes && v != x && c.nodes[v].role != Observer && c.nodes[v].term <= c.nodes[x].term
    && UpToDate(c.nodes[v].log, |c.nodes[x].log|, LastTerm(c.nodes[x].log))
  }

  /** A coordinator whose deadline has passed and whose battery suffices wins
      the ballot it starts if a majority are awake, with no newer term and no
      better log. */
  lemma BallotElects(c: Cluster, x: NodeId, voters: seq<NodeId>, env: NodeId -> Env)
    requires Configured(c) && x in c.nodes && c.nodes[x].role in {Follower, Candidate}
    requires env(x).now >= c.nodes[x].electionDeadline && (c.protocol == Raft || env(x).battery >= T_LOW)
    requires forall v :: v in voters ==> Elector(c, x, v)
    requires forall i, j :: 0 <= i < j < |voters| ==> voters[i] != voters[j]
    requires voters != [] && 2 * (|voters| + 1) > |c.nodes|
    ensures LeadsTerm(Ballot(c, x, voters, env), x, c.nodes[x].term + 1)
  {
    hide StartElection, Elector, Willing;
    var c1 := Apply(c, TimerTick(x, env(x)));
    var p := VoteRequest(StartElection(c.nodes[x], env(x)).node, env(x));
    BallotOpens(c, x, env(x));
    forall v | v in voters ensures Willing(c1, x, v, p) && Request(x, v, p) in c1.msgs {
      ElectorAsked(c, x, v, env(x));
    }
    PollOutcome(c1, x, voters, p, env);
    Count(c, x, voters);
  }

  /** x stands with a vote of its own once its timer has fired. */
  lemma BallotOpens(c: Cluster, x: NodeId, env: Env)
    requires Configured(c) && x in c.nodes && c.nodes[x].role in {Follower, Candidate}
    requires env.now >= c.nodes[x].electionDeadline
    ensures var c1, o := Then(c, TimerTick(x, env)), StartElection(c.nodes[x], env);
      && Enabled(c, TimerTick(x, env)) && c1.nodes == c.nodes[x := o.node] && Elements(o.sent) <= c1.msgs
      && ConfiguredNode(c, x) && o.node.peers == c.nodes[x].peers && o.node.votes.Keys == {x}
      && o.node.term == c.nodes[x].term + 1 && Stands(c1, x, VoteRequest(o.node, env)) && o.node.role == Candidate
  {
    hide StartElection;
    assert ConfiguredNode(c, x);
    Campaigning(c.nodes[x], env);
  }

  /** Then every elector is willing, and has been asked. */
  lemma ElectorAsked(c: Cluster, x: NodeId, v: NodeId, env: Env)
    requires Configured(c) && x in c.nodes && c.nodes[x].role in {Follower, Candidate} && Elector(c, x, v)
    requires env.now >= c.nodes[x].electionDeadline && (c.protocol == Raft || env.battery >= T_LOW)
    ensures var c1, p := Then(c, TimerTick(x, env)), VoteRequest(StartElection(c.nodes[x], env).node, env);
      Willing(c1, x, v, p) && Request(x, v, p) in c1.msgs
  {
    hide StartElection, UpToDate;
    BallotOpens(c, x, env);
    assert ConfiguredNode(c, x) && ConfiguredNode(c, v);
    Campaigning(c.nodes[x], env);
    assert v in Elements(c.nodes[x].peers);
    assert Request(x, v, VoteRequest(StartElection(c.nodes[x], env).node, env))
      in Elements(StartElection(c.nodes[x], env).sent);
  }

  lemma Campaigning(s: Node, env: Env)
    requires s.role != Observer
    ensures var o := StartElection(s, env);
      && o.node.role == Candidate && o.node.term == s.term + 1 && o.node.id == s.id && o.node.log == s.log
      && o.node.peers == s.peers && o.node.votes.Keys == {s.id} && o.node.commit == s.commit
      && forall v :: v in s.peers ==> Request(s.id, v, VoteRequest(o.node, env)) in o.sent
  {
    hide NewElectionDeadline;
    var o := StartElection(s, env);
    forall v | v in s.peers ensures Request(s.id, v, VoteRequest(o.node, env)) in o.sent {
      var i :| 0 <= i < |s.peers| && s.peers[i] == v;
      assert o.sent[i] == Request(s.id, v, VoteRequest(o.node, env));
    }
  }

  /** The voters and the candidate are a majority. */
  lemma Count(c: Cluster, x: NodeId, voters: seq<NodeId>)
    requires x in c.nodes && ConfiguredNode(c, x) && forall v :: v in voters ==> Elector(c, x, v)
    requires forall i, j :: 0 <= i < j < |voters| ==> voters[i] != voters[j]
    requires 2 * (|voters| + 1) > |c.nodes|
    ensures Majority(|{x} + Elements(voters)|, c.nodes[x])
  {
    Leadership.Distinct(voters);
    assert |{x} + Elements(voters)| == 1 + |voters|;
  }

  /** All timers were last reset at the same time, `reset(n)` is what n read
      then, and x was at least seven battery points above every other. */
  ghost predicate WellAhead(c: Cluster, x: NodeId, reset: NodeId -> Env) {
    forall n :: n in c.nodes ==>
      && reset(n).now == reset(x).now
      && c.nodes[n].electionDeadline == NewElectionDeadline(c.nodes[n], reset(n))
      && (n != x ==> reset(x).battery >= reset(n).battery + 7)
  }

  /** The first-ballot win of echoD: a coordinator at least seven points ahead
      has the earliest deadline by at least 19 ms; so until 19 ms after it no
      other timer starts an election, and a ballot delivered by then elects it,
      if its log is up to date, its term is maximal, its battery suffices and a
      majority are awake. */
  lemma FirstBallotWins(c: Cluster, x: NodeId, voters: seq<NodeId>, reset: NodeId -> Env, env: NodeId -> Env)
    requires Configured(c) && c.protocol == EchoD && x in c.nodes && WellAhead(c, x, reset)
    requires forall n :: n in c.nodes ==> c.nodes[n].role in {Follower, Observer}
    requires c.nodes[x].role == Follower && env(x).battery >= T_LOW
    requires env(x).now >= c.nodes[x].electionDeadline
    requires forall n :: n in c.nodes ==> env(n).now < c.nodes[x].electionDeadline + 0.019
    requires forall v :: v in voters ==> Elector(c, x, v)
    requires forall i, j :: 0 <= i < j < |voters| ==> voters[i] != voters[j]
    requires voters != [] && 2 * (|voters| + 1) > |c.nodes|
    ensures forall n :: n in c.nodes && n != x ==> Tick(c.nodes[n], env(n)) == Out(c.nodes[n], [])
    ensures LeadsTerm(Ballot(c, x, voters, env), x, c.nodes[x].term + 1)
  {
    hide Ballot, Elector, NewElectionDeadline;
    BallotElects(c, x, voters, env);
    forall n | n in c.nodes && n != x ensures Tick(c.nodes[n], env(n)) == Out(c.nodes[n], []) {
      assert ConfiguredNode(c, n) && ConfiguredNode(c, x);
      Gap(c.nodes[x], c.nodes[n], reset(x), reset(n));
    }
  }

  lemma Gap(a: Node, b: Node, envA: Env, envB: Env)
    requires a.protocol == EchoD && b.protocol == EchoD && envA.now == envB.now && envA.battery >= envB.battery + 7
    ensures NewElectionDeadline(b, envB) - NewElectionDeadline(a, envA) >= 0.019
  {
    assert (1.0 - envA.battery as real / 100.0) * 2.4 == 2.4 - 0.024 * envA.battery as real;
    assert (1.0 - envB.battery as real / 100.0) * 2.4 == 2.4 - 0.024 * envB.battery as real;
  }
}
