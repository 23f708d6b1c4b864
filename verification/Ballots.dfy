/** Elections and the answers a coordinator owes: who campaigns, who gets a vote,
    when votes make a leader, and what each message is answered with. Stated of
    whole steps, and of runs. */
module Ballots {
  import opened Types
  import opened Handlers
  import opened Clusters
  import Energy
  import Ledger
  import Office
  import Safety

  /** The election timer was set at this instant: to a random timeout in raft and
      echo; in echod to between 2.4 s at full battery and 4.8 s at none, plus the
      tie-break. */
  predicate TimerSet(s: Node, env: Env) {
    s.electionDeadline == env.now
      + (if s.protocol == EchoD then 4.8 - env.battery as real * 0.024 + s.tie as real * 0.001 else env.timeout)
  }

  lemma DeadlineSet(s: Node, env: Env)
    ensures TimerSet(ResetElectionTimer(s, env), env)
  {
  }

  /** The state but for the term, the vote, the role and the timer. */
  predicate SameButBallot(s: Node, s': Node) {
    s' == s.(term := s'.term, votedFor := s'.votedFor, role := s'.role, electionDeadline := s'.electionDeadline)
  }

  /** The role of a node that hears of a newer term. */
  function Humbled(role: Role): Role {
    if role == Observer then Observer else Follower
  }

  lemma StepsDown(s: Node, t: nat, env: Env)
    ensures var s' := StepDown(s, t, env);
      && SameButBallot(s, s') && s'.term == t && s'.votedFor == None && s'.role == Humbled(s.role)
      && (if s.role == Observer then s'.electionDeadline == s.electionDeadline else TimerSet(s', env))
  {
    hide NewElectionDeadline, TimerSet;
    var s1 := s.(term := t, votedFor := None, role := Humbled(s.role));
    DeadlineSet(s1, env);
  }

  // ------------------------------------------------------------------- votes

  /** The log of the candidate is at least as recent as this one: its last entry
      has a later term, or the same and the log is no shorter. */
  predicate Recent(log: Log, p: Payload)
    requires p.RequestVote?
  {
    var lastTerm := if |log| > 0 then log[|log| - 1].term else 0;
    p.lastTerm > lastTerm || (p.lastTerm == lastTerm && p.lastIndex >= |log|)
  }

  predicate Deserves(s: Node, p: Payload)
    requires p.RequestVote?
  {
    && p.term >= s.term && s.role != Observer
    && (s.protocol != Raft ==> p.battery >= 15)
    && (p.term > s.term || s.votedFor == None || s.votedFor == Some(p.candidate))
    && Recent(s.log, p)
  }

  predicate HasBallot(s: Node, a: Action) {
    a.Deliver? && a.packet.payload.RequestVote?
  }

  /** A vote request is always answered, with one packet to its sender, and the
      vote is granted exactly to a candidate that deserves it, which restarts the
      timer. */
  lemma VoteExactly(s: Node, a: Action)
    requires HasBallot(s, a)
    ensures var o, p := Fire(s, a), a.packet.payload;
      && o.sent == [Packet(s.id, To(a.packet.src), VoteResponse(o.node.term, Deserves(s, p), s.id, a.env.battery))]
      && SameButBallot(s, o.node)
      && o.node.term == (if p.term > s.term then p.term else s.term)
      && o.node.votedFor == (if Deserves(s, p) then Some(p.candidate) else if p.term > s.term then None else s.votedFor)
      && o.node.role == (if p.term > s.term then Humbled(s.role) else s.role)
      && (if Deserves(s, p) || (p.term > s.term && s.role != Observer) then TimerSet(o.node, a.env)
          else o.node.electionDeadline == s.electionDeadline)
  {
    hide StepDown, HandleRequestVote, TimerSet, Recent;
    var p, env := a.packet.payload, a.env;
    StepsDown(s, p.term, env);
    var s1 := if p.term > s.term then StepDown(s, p.term, env) else s;
    BallotCast(s, s1, a);
  }

  lemma BallotCast(s: Node, s1: Node, a: Action)
    requires HasBallot(s, a) && SameButBallot(s, s1) && (s1.role == Observer <==> s.role == Observer)
    requires s1 == (if a.packet.payload.term > s.term then StepDown(s, a.packet.payload.term, a.env) else s)
    requires a.packet.payload.term > s.term ==> s1.term == a.packet.payload.term && s1.votedFor == None
    ensures var o, p := HandleRequestVote(s, a.packet.src, a.packet.payload, a.env), a.packet.payload;
      && o.sent == [Packet(s.id, To(a.packet.src), VoteResponse(o.node.term, Deserves(s, p), s.id, a.env.battery))]
      && o.node == s1.(votedFor := o.node.votedFor, electionDeadline := o.node.electionDeadline)
      && o.node.votedFor == (if Deserves(s, p) then Some(p.candidate) else s1.votedFor)
      && (if Deserves(s, p) then TimerSet(o.node, a.env) else o.node.electionDeadline == s1.electionDeadline)
  {
    hide StepDown, NewElectionDeadline, TimerSet, UpToDate, Recent;
    SameRecency(s.log, a.packet.payload);
    DeadlineSet(s1.(votedFor := Some(a.packet.payload.candidate)), a.env);
  }

  lemma SameRecency(log: Log, p: Payload)
    requires p.RequestVote?
    ensures UpToDate(log, p.lastIndex, p.lastTerm) <==> Recent(log, p)
  {
  }

  // --------------------------------------------------------------- campaigns

  /** The node has waited too long for a leader, or was nominated. */
  predicate Called(s: Node, a: Action) {
    || (a.TimerTick? && s.role in {Follower, Candidate} && a.env.now >= s.electionDeadline)
    || (a.Deliver? && a.packet.payload.LeadershipHandoff? && s.protocol == EchoD && s.role != Observer
        && a.packet.payload.term >= s.term)
  }

  /** What a campaign does: it opens a new term, votes for itself, forgets the
      leader, restarts the timer and asks every peer. */
  ghost predicate Campaigns(s: Node, t: nat, a: Action, o: Out) {
    && o.node.role == Candidate && o.node.term == t + 1 && o.node.votedFor == Some(s.id) && o.node.leader == None
    && o.node.votes == map[s.id := a.env.battery] && TimerSet(o.node, a.env)
    && o.node == s.(role := Candidate, term := t + 1, votedFor := Some(s.id), leader := None, votes := o.node.votes,
                    electionDeadline := o.node.electionDeadline)
    && |o.sent| == |s.peers|
    && forall i :: 0 <= i < |s.peers| ==> o.sent[i] == Packet(s.id, To(s.peers[i]),
         RequestVote(t + 1, s.id, |s.log|, if |s.log| > 0 then s.log[|s.log| - 1].term else 0, a.env.battery))
  }

  /** The newest term the called node knows of. */
  function LatestTerm(s: Node, a: Action): nat
    requires Called(s, a)
  {
    if a.TimerTick? || a.packet.payload.term < s.term then s.term else a.packet.payload.term
  }

  lemma ElectionCampaigns(s: Node, a: Action)
    requires s.role != Observer
    ensures Campaigns(s, s.term, a, StartElection(s, a.env))
  {
    hide NewElectionDeadline, TimerSet;
    var s1 := s.(term := s.term + 1, role := Candidate, votedFor := Some(s.id), leader := None,
                 votes := map[s.id := a.env.battery]);
    DeadlineSet(s1, a.env);
    var o := StartElection(s, a.env);
    assert o.node == ResetElectionTimer(s1, a.env);
    assert TimerSet(o.node, a.env);
    forall i | 0 <= i < |s.peers|
      ensures o.sent[i] == Packet(s.id, To(s.peers[i]),
        RequestVote(s.term + 1, s.id, |s.log|, if |s.log| > 0 then s.log[|s.log| - 1].term else 0, a.env.battery))
    {
      assert o.sent[i] == Packet(s.id, To(s.peers[i]), VoteRequest(o.node, a.env));
    }
  }

  lemma FromStepDown(s: Node, s1: Node, a: Action, o: Out)
    requires SameButBallot(s, s1) && Campaigns(s1, s1.term, a, o)
    ensures Campaigns(s, s1.term, a, o)
  {
    hide TimerSet;
  }

  /** A node that is called campaigns, in the term after its own and, if nominated,
      after that of the handoff. Nobody else asks for votes, or becomes CANDIDATE. */
  lemma CampaignExactly(s: Node, a: Action)
    requires a.LeafReport? ==> a.report.SensorData?
    ensures Called(s, a) ==>
      Campaigns(s, LatestTerm(s, a), a, Fire(s, a))
    ensures !Called(s, a) ==>
      && (forall m :: m in Fire(s, a).sent ==> !m.payload.RequestVote?)
      && (Fire(s, a).node.role == Candidate ==> s.role == Candidate && Fire(s, a).node.term == s.term)
  {
    hide Fire, Campaigns;
    if Called(s, a) { CalledCampaigns(s, a); } else { UncalledStays(s, a); }
  }

  lemma CalledCampaigns(s: Node, a: Action)
    requires Called(s, a)
    ensures Campaigns(s, LatestTerm(s, a), a, Fire(s, a))
  {
    hide StepDown, StartElection, Campaigns, LeaderTick;
    if a.TimerTick? {
      ElectionCampaigns(s, a);
    } else {
      var p := a.packet.payload;
      StepsDown(s, p.term, a.env);
      var s1 := if p.term > s.term then StepDown(s, p.term, a.env) else s;
      ElectionCampaigns(s1, a);
      FromStepDown(s, s1, a, StartElection(s1, a.env));
    }
  }

  /** The step asks nobody for a vote and starts no candidacy. */
  predicate Quiet(s: Node, o: Out) {
    && (forall m :: m in o.sent ==> !m.payload.RequestVote?)
    && (o.node.role == Candidate ==> s.role == Candidate && o.node.term == s.term)
  }

  lemma PlainQuiet(s: Node, o: Out)
    requires Energy.Plain(s, o)
    ensures Quiet(s, o)
  {
  }

  lemma UncalledStays(s: Node, a: Action)
    requires a.LeafReport? ==> a.report.SensorData?
    requires !Called(s, a)
    ensures Quiet(s, Fire(s, a))
  {
    hide Dispatch, HandleSensor, LeaderTick, StartElection, CheckBattery, Handlers.HandlePartitionControl,
      Energy.Plain, Quiet;
    match a {
      case Deliver(_, _, _) => UncalledDelivery(s, a);
      case TimerTick(_, env) => UncalledTick(s, env);
      case LeafReport(_, env, report) => Energy.SensorPlain(s, report, env);
      case BatteryCheck(_, env) => Energy.CheckPlain(s, env);
      case PartitionControl(_, _, heal) => Energy.PartitionPlain(s, heal);
    }
    if Energy.Plain(s, Fire(s, a)) { PlainQuiet(s, Fire(s, a)); }
  }

  lemma UncalledTick(s: Node, env: Env)
    requires !(s.role in {Follower, Candidate} && env.now >= s.electionDeadline)
    ensures Quiet(s, Tick(s, env))
  {
    hide LeaderTick, Energy.Plain;
    if Leads(s.role) {
      Energy.LeaderTickPlain(s, env);
      PlainQuiet(s, LeaderTick(s, env));
    }
  }

  lemma UncalledDelivery(s: Node, a: Action)
    requires a.Deliver? && !Called(s, a)
    ensures Quiet(s, Fire(s, a))
  {
    hide HandleRequestVote, HandleVoteResponse, HandleAppendEntries, HandleAppendResponse,
      HandlePing, HandleSensor, HandleReconcile, StepDown, StartElection, Energy.Plain, Quiet;
    var sender, p, env := a.packet.src, a.packet.payload, a.env;
    match p {
      case RequestVote(_, _, _, _, _) => QuietVote(s, a);
      case VoteResponse(_, _, _, _) => QuietResponse(s, sender, p, env);
      case LeadershipHandoff(_, _) => QuietHandoff(s, p, env);
      case AppendEntries(_, _, _, _, _, _) => Energy.AppendPlain(s, sender, p, env);
      case AppendResponse(_, _, _, _, _, _) => Energy.AckPlain(s, sender, p, env);
      case LivenessPing(_, _) => Energy.PingPlain(s, p, env);
      case SensorData(_, _, _) => Energy.SensorPlain(s, p, env);
      case ReconcileBatch(_, _, _) => Energy.ReconcilePlain(s, p, env);
    }
    if Energy.Plain(s, Fire(s, a)) { PlainQuiet(s, Fire(s, a)); }
  }

  lemma QuietVote(s: Node, a: Action)
    requires HasBallot(s, a)
    ensures Quiet(s, HandleRequestVote(s, a.packet.src, a.packet.payload, a.env))
  {
    hide HandleRequestVote, Deserves, TimerSet;
    VoteExactly(s, a);
  }

  lemma QuietHandoff(s: Node, p: Payload, env: Env)
    requires p.LeadershipHandoff? && !(s.protocol == EchoD && s.role != Observer && p.term >= s.term)
    ensures Quiet(s, HandleHandoff(s, p, env))
  {
    hide StartElection, StepDown;
  }

  lemma QuietResponse(s: Node, sender: NodeId, p: Payload, env: Env)
    requires p.VoteResponse?
    ensures Quiet(s, HandleVoteResponse(s, sender, p, env))
  {
    hide StepDown, BecomeLeader;
    StepsDown(s, p.term, env);
    Energy.OfficePlain(if p.granted then s.(votes := s.votes[sender := p.battery]) else s, env);
  }

  // ---------------------------------------------------------------- counting

  predicate HasVote(a: Action) {
    a.Deliver? && a.packet.payload.VoteResponse?
  }

  /** The vote is for the candidacy the node stands in. */
  predicate Counting(s: Node, a: Action)
    requires HasVote(a)
  {
    s.role == Candidate && a.packet.payload.term == s.term
  }

  /** The voters once the response is counted. */
  function Voters(s: Node, a: Action): set<NodeId>
    requires HasVote(a)
  {
    s.votes.Keys + (if a.packet.payload.granted then {a.packet.src} else {})
  }

  /** A response of a newer term ends the candidacy, one of an older term or to a
      node that does not stand is ignored, and any other is counted: the candidate
      is LEADER at once if its voters are more than half of the cluster, and stays
      CANDIDATE if they are not. */
  lemma VotesDecide(s: Node, a: Action)
    requires HasVote(a)
    ensures var o, t := Fire(s, a), a.packet.payload.term;
      if t > s.term then o.sent == [] && o.node.term == t && o.node.role == Humbled(s.role) && SameButBallot(s, o.node)
      else if !Counting(s, a) then o == Out(s, [])
      else
        && o.node.term == s.term && o.node.votes.Keys == Voters(s, a)
        && o.node.role == (if 2 * |Voters(s, a)| > |s.peers| + 1 then Leader else Candidate)
        && (o.node.role == Candidate ==> o == Out(s.(votes := o.node.votes), []))
  {
    hide HandleVoteResponse, StepDown, TimerSet;
    if Counting(s, a) {
      VoteCounted(s, a);
    } else {
      VoteNotCounted(s, a);
    }
  }

  lemma VoteNotCounted(s: Node, a: Action)
    requires HasVote(a) && !Counting(s, a)
    ensures var o, t := HandleVoteResponse(s, a.packet.src, a.packet.payload, a.env), a.packet.payload.term;
      if t > s.term then o.sent == [] && o.node.term == t && o.node.role == Humbled(s.role) && SameButBallot(s, o.node)
      else o == Out(s, [])
  {
    hide StepDown, BecomeLeader, TimerSet;
    StepsDown(s, a.packet.payload.term, a.env);
  }

  lemma VoteCounted(s: Node, a: Action)
    requires HasVote(a) && Counting(s, a)
    ensures var o := HandleVoteResponse(s, a.packet.src, a.packet.payload, a.env);
      && o.node.term == s.term && o.node.votes.Keys == Voters(s, a)
      && o.node.role == (if 2 * |Voters(s, a)| > |s.peers| + 1 then Leader else Candidate)
      && (o.node.role == Candidate ==> o == Out(s.(votes := o.node.votes), []))
  {
    hide HandleVoteResponse, BecomeLeader, Majority;
    var s1 := s.(votes := Tally(s, a));
    CountDecides(s1, a.env);
    Counted(s, a);
  }

  function Tally(s: Node, a: Action): (r: map<NodeId, Battery>)
    requires HasVote(a)
    ensures r.Keys == Voters(s, a)
  {
    if a.packet.payload.granted then s.votes[a.packet.src := a.packet.payload.battery] else s.votes
  }

  lemma Counted(s: Node, a: Action)
    requires HasVote(a) && Counting(s, a)
    ensures HandleVoteResponse(s, a.packet.src, a.packet.payload, a.env) ==
      var s1 := s.(votes := Tally(s, a)); if Majority(|s1.votes|, s1) then BecomeLeader(s1, a.env) else Out(s1, [])
  {
    hide StepDown, BecomeLeader, Majority;
  }

  lemma CountDecides(s: Node, env: Env)
    ensures var o := if Majority(|s.votes|, s) then BecomeLeader(s, env) else Out(s, []);
      && o.node.term == s.term && o.node.votes == s.votes
      && o.node.role == (if 2 * |s.votes.Keys| > |s.peers| + 1 then Leader else s.role)
      && (2 * |s.votes.Keys| <= |s.peers| + 1 ==> o == Out(s, []))
  {
    hide BecomeLeader;
    assert |s.votes| == |s.votes.Keys|;
    Energy.OfficePlain(s, env);
    OfficeKeepsVotes(s, env);
  }

  lemma OfficeKeepsVotes(s: Node, env: Env)
    ensures BecomeLeader(s, env).node.votes == s.votes
  {
    hide SetAll, FlushPending, SendPing, Heartbeats;
    var s1 := AssertLeadership(AssumeOffice(s, env)).node;
    Office.AssertsPings(AssumeOffice(s, env));
    Office.FlushReplays(s1, env);
  }

  /** A candidate with peers has no majority yet, counted with itself. */
  predicate Undecided(s: Node) {
    s.role == Candidate && s.peers != [] ==> 2 * |s.votes| <= |s.peers| + 1
  }

  lemma UndecidedStep(s: Node, a: Action)
    requires a.LeafReport? ==> a.report.SensorData?
    requires Undecided(s)
    ensures Undecided(Fire(s, a).node)
  {
    hide Fire, Campaigns;
    CampaignExactly(s, a);
    Ledger.FireAccounts(s, a);
    assert Fire(s, a).node.peers == s.peers by { SamePeers(s, a, Fire(s, a).node); }
    if Called(s, a) {
      OneVote(s, a);
    } else if Fire(s, a).node.role == Candidate {
      if HasVote(a) {
        VotesDecide(s, a);
        assert |Fire(s, a).node.votes| == |Fire(s, a).node.votes.Keys|;
      } else {
        VotesStay(s, a);
      }
    }
  }

  lemma SamePeers(s: Node, a: Action, s': Node)
    requires a.LeafReport? ==> a.report.SensorData?
    requires Ledger.Accounted(s, a, s')
    ensures s'.peers == s.peers
  {
    hide Ledger.Bag, Ledger.Intake, Ledger.BatchOk;
  }

  lemma OneVote(s: Node, a: Action)
    requires a.LeafReport? ==> a.report.SensorData?
    requires Called(s, a)
    ensures |Fire(s, a).node.votes| == 1
  {
    hide Fire, TimerSet;
    CampaignExactly(s, a);
  }

  lemma VotesStay(s: Node, a: Action)
    requires a.LeafReport? ==> a.report.SensorData?
    requires !Called(s, a) && !HasVote(a) && Fire(s, a).node.role == Candidate
    ensures s.role == Candidate && Fire(s, a).node.votes == s.votes
  {
    hide Dispatch, HandleSensor, LeaderTick, StartElection, CheckBattery, Handlers.HandlePartitionControl, Energy.Plain;
    match a {
      case Deliver(_, _, _) => DeliveryKeepsVotes(s, a);
      case TimerTick(_, env) => if Leads(s.role) { Energy.LeaderTickPlain(s, env); }
      case LeafReport(_, env, report) => Energy.SensorPlain(s, report, env);
      case BatteryCheck(_, env) => Energy.CheckPlain(s, env);
      case PartitionControl(_, _, heal) => Energy.PartitionPlain(s, heal);
    }
    if Energy.Plain(s, Fire(s, a)) { PlainVotesStay(s, Fire(s, a)); }
  }

  lemma PlainVotesStay(s: Node, o: Out)
    requires Energy.Plain(s, o) && o.node.role == Candidate
    ensures s.role == Candidate && o.node.votes == s.votes
  {
  }

  lemma DeliveryKeepsVotes(s: Node, a: Action)
    requires a.Deliver? && !Called(s, a) && !HasVote(a) && Fire(s, a).node.role == Candidate
    ensures s.role == Candidate && Fire(s, a).node.votes == s.votes
  {
    hide HandleRequestVote, HandleVoteResponse, HandleAppendEntries, HandleAppendResponse,
      HandlePing, HandleSensor, HandleReconcile, StepDown, StartElection, Energy.Plain;
    var sender, p, env := a.packet.src, a.packet.payload, a.env;
    match p {
      case RequestVote(_, _, _, _, _) => VoteExactly(s, a);
      case LeadershipHandoff(_, _) =>
      case AppendEntries(_, _, _, _, _, _) => Energy.AppendPlain(s, sender, p, env);
      case AppendResponse(_, _, _, _, _, _) => Energy.AckPlain(s, sender, p, env);
      case LivenessPing(_, _) => Energy.PingPlain(s, p, env);
      case SensorData(_, _, _) => Energy.SensorPlain(s, p, env);
      case ReconcileBatch(_, _, _) => Energy.ReconcilePlain(s, p, env);
    }
    if Energy.Plain(s, Fire(s, a)) { PlainVotesStay(s, Fire(s, a)); }
  }

  /** No candidate of a cluster of several nodes ever sits on a majority: the vote
      that completes it makes it LEADER in the same step. */
  lemma {:induction false} NoMajorityWaits(run: seq<Cluster>, acts: seq<Action>, n: NodeId)
    requires IsRun(run, acts) && n in run[0].nodes && |run[0].nodes| > 1
    ensures n in run[|acts|].nodes
    ensures run[|acts|].nodes[n].role == Candidate ==>
      2 * |run[|acts|].nodes[n].votes| <= |run[|acts|].nodes[n].peers| + 1
    ensures run[|acts|].nodes[n].peers == run[0].nodes[n].peers != []
    decreases |acts|
  {
    hide Fire, Enabled, Init, Ledger.Accounted;
    if acts == [] {
      HasPeers(run[0], n);
    } else {
      var last := |acts| - 1;
      Safety.PrefixIsRun(run, acts);
      NoMajorityWaits(run[..last + 1], acts[..last], n);
      assert run[..last + 1][last] == run[last] && run[..last + 1][0] == run[0];
      if acts[last].node == n { UndecidedMove(run[last], acts[last]); }
    }
  }

  lemma UndecidedMove(c: Cluster, a: Action)
    requires Enabled(c, a) && Undecided(c.nodes[a.node])
    ensures Undecided(Apply(c, a).nodes[a.node]) && Apply(c, a).nodes[a.node].peers == c.nodes[a.node].peers
  {
    hide Fire, Ledger.Accounted;
    UndecidedStep(c.nodes[a.node], a);
    Ledger.FireAccounts(c.nodes[a.node], a);
    SamePeers(c.nodes[a.node], a, Fire(c.nodes[a.node], a).node);
  }

  lemma HasPeers(c: Cluster, n: NodeId)
    requires Init(c) && n in c.nodes && |c.nodes| > 1
    ensures c.nodes[n].peers != [] && c.nodes[n].role == Follower
  {
    assert ConfiguredNode(c, n) && Booted(c.nodes[n]);
  }
}
