/** What a coordinator does with what it hears from a leader and from the cut-off
    side of a healed partition. Stated of whole steps. */
module Answers {
  import opened Types
  import opened Handlers
  import opened Clusters
  import opened Ballots
  import Dedup
  import Effects
  import Ledger
  import Office

  /** What the step hears from a node that speaks as leader. */
  predicate HearsLeader(a: Action) {
    a.Deliver? && (a.packet.payload.LivenessPing? || a.packet.payload.AppendEntries?)
  }

  /** A leader of an older term is not obeyed. Any other is: the node believes in
      it, is in its term, restarts the timer and, on entries, stands no more. */
  lemma LeaderObeyed(s: Node, a: Action)
    requires HearsLeader(a)
    ensures var s', p := Fire(s, a).node, a.packet.payload;
      if p.term < s.term then s' == s
      else
        && s'.leader == Some(p.leader) && s'.term == p.term && TimerSet(s', a.env)
        && s'.votedFor == (if p.term > s.term then None else s.votedFor)
        && s'.role == (if p.term > s.term then Humbled(s.role)
                       else if s.role == Candidate && p.AppendEntries? then Follower else s.role)
        && (p.LivenessPing? ==> s' == s.(leader := s'.leader, term := s'.term, votedFor := s'.votedFor, role := s'.role,
                                         electionDeadline := s'.electionDeadline))
  {
    hide HandlePing, HandleAppendEntries, TimerSet;
    if !a.packet.payload.LivenessPing? {
      EntriesObeyed(s, a);
    } else if a.packet.payload.term >= s.term {
      PingObeyed(s, a.packet.payload, a.env);
    } else {
      PingIgnored(s, a.packet.payload, a.env);
    }
  }

  lemma PingObeyed(s: Node, p: Payload, env: Env)
    requires p.LivenessPing? && p.term >= s.term
    ensures var s' := HandlePing(s, p, env);
      && TimerSet(s', env) && s'.role == (if p.term > s.term then Humbled(s.role) else s.role)
      && s'.votedFor == (if p.term > s.term then None else s.votedFor)
      && s' == s.(leader := Some(p.leader), term := p.term, votedFor := s'.votedFor, role := s'.role,
                  electionDeadline := s'.electionDeadline)
  {
    hide StepDown, NewElectionDeadline, TimerSet;
    StepsDown(s, p.term, env);
    var s1 := if p.term > s.term then StepDown(s, p.term, env) else s;
    DeadlineSet(s1.(leader := Some(p.leader)), env);
  }

  lemma PingIgnored(s: Node, p: Payload, env: Env)
    requires p.LivenessPing? && p.term < s.term
    ensures HandlePing(s, p, env) == s
  {
  }

  lemma EntriesObeyed(s: Node, a: Action)
    requires Ledger.TakesEntries(a)
    ensures var s', p := Fire(s, a).node, a.packet.payload;
      if p.term < s.term then s' == s
      else
        && s'.leader == Some(p.leader) && s'.term == p.term && TimerSet(s', a.env)
        && s'.votedFor == (if p.term > s.term then None else s.votedFor)
        && s'.role == (if p.term > s.term then Humbled(s.role) else if s.role == Candidate then Follower else s.role)
  {
    hide TimerSet, Fits;
    if a.packet.payload.term >= s.term {
      Obeys(s, a);
    } else {
      Refuses(s, a);
    }
  }

  // ----------------------------------------------------------- AppendEntries

  /** The log holds the entry before the new ones. */
  predicate Fits(log: Log, p: Payload)
    requires p.AppendEntries?
  {
    p.prevIndex == 0 || (p.prevIndex <= |log| && log[p.prevIndex - 1].term == p.prevTerm)
  }

  /** The step's state but for what entries change. */
  predicate SameButEntries(s: Node, s': Node) {
    s' == s.(term := s'.term, votedFor := s'.votedFor, role := s'.role, leader := s'.leader,
             electionDeadline := s'.electionDeadline, log := s'.log, commit := s'.commit)
  }

  /** The answer owed to the sender. */
  function Answer(s: Node, s': Node, a: Action, accepted: bool): Packet
    requires Ledger.TakesEntries(a)
  {
    var p := a.packet.payload;
    var matched, covered := if accepted then |s'.log| else 0, if accepted then p.prevIndex + |p.entries| else 0;
    Packet(s.id, To(a.packet.src), AppendResponse(s'.term, accepted, s.id, matched, a.env.battery, covered))
  }

  ghost predicate Answered(s: Node, a: Action, o: Out, accepted: bool)
    requires Ledger.TakesEntries(a)
  {
    && |o.sent| > 0 && o.sent[|o.sent| - 1] == Answer(s, o.node, a, accepted)
    && (forall m :: m in o.sent[..|o.sent| - 1] ==> m.payload.ReconcileBatch?)
    && SameButEntries(s, o.node)
    && (if accepted then o.node.commit == LearnedCommit(s, a.packet.payload, o.node.log)
        else |o.sent| == 1 && o.node.log == s.log && o.node.commit == s.commit)
  }

  /** The greater of the commit index and the leader's, as far as the log goes. */
  function LearnedCommit(s: Node, p: Payload, log: Log): nat
    requires p.AppendEntries?
  {
    var told := if p.leaderCommit <= |log| then p.leaderCommit else |log|;
    if p.leaderCommit > s.commit then told else s.commit
  }

  /** The state once the term check is passed. */
  function Heard(s: Node, p: Payload, env: Env): Node
    requires p.AppendEntries? && p.term >= s.term
  {
    if p.term > s.term then StepDown(s, p.term, env) else s
  }

  lemma HeardParts(s: Node, p: Payload, env: Env)
    requires p.AppendEntries? && p.term >= s.term
    ensures var s1 := Heard(s, p, env);
      && SameButBallot(s, s1) && s1.term == p.term && s1.votedFor == (if p.term > s.term then None else s.votedFor)
      && s1.role == (if p.term > s.term then Humbled(s.role) else s.role)
  {
    hide StepDown, TimerSet;
    StepsDown(s, p.term, env);
  }

  lemma Obeys(s: Node, a: Action)
    requires Ledger.TakesEntries(a) && a.packet.payload.term >= s.term
    ensures var o, p := Fire(s, a), a.packet.payload;
      && Answered(s, a, o, Fits(s.log, p))
      && o.node.leader == Some(p.leader) && o.node.term == p.term && TimerSet(o.node, a.env)
      && o.node.votedFor == (if p.term > s.term then None else s.votedFor)
      && o.node.role == (if p.term > s.term then Humbled(s.role) else if s.role == Candidate then Follower else s.role)
  {
    hide AcceptOrReject, TimerSet, Answered, Fits, StepDown;
    var p := a.packet.payload;
    HeardParts(s, p, a.env);
    Obeyed(Heard(s, p, a.env), a);
    AnsweredBefore(s, Heard(s, p, a.env), a, AcceptOrReject(Heard(s, p, a.env), a.packet.src, p, a.env));
    assert Fire(s, a) == AcceptOrReject(Heard(s, p, a.env), a.packet.src, p, a.env);
  }

  lemma AnsweredBefore(s: Node, s1: Node, a: Action, o: Out)
    requires Ledger.TakesEntries(a)
    requires SameButBallot(s, s1) && Answered(s1, a, o, Fits(s1.log, a.packet.payload))
    ensures Answered(s, a, o, Fits(s.log, a.packet.payload))
  {
    hide Fits;
  }

  lemma Obeyed(s: Node, a: Action)
    requires Ledger.TakesEntries(a) && a.packet.payload.term == s.term
    ensures var o := AcceptOrReject(s, a.packet.src, a.packet.payload, a.env);
      && Answered(s, a, o, Fits(s.log, a.packet.payload))
      && o.node.leader == Some(a.packet.payload.leader) && o.node.term == s.term && TimerSet(o.node, a.env)
      && o.node.votedFor == s.votedFor && o.node.role == (if s.role == Candidate then Follower else s.role)
  {
    hide AcceptEntries, NewElectionDeadline, TimerSet, Answered, Fits;
    var p := a.packet.payload;
    var s1 := ResetElectionTimer(s, a.env).(leader := Some(p.leader),
      role := if s.role == Candidate then Follower else s.role);
    DeadlineSet(s, a.env);
    var o := AcceptOrReject(s, a.packet.src, p, a.env);
    SameFits(s.log, p);
    if Fits(s.log, p) { Accepts(s1, a); } else { Rejects(s1, a); }
    SameTimer(ResetElectionTimer(s, a.env), o.node, a.env);
    AnsweredFrom(s, s1, a, o, Fits(s.log, p));
  }

  lemma SameFits(log: Log, p: Payload)
    requires p.AppendEntries?
    ensures PrevMatches(log, p.prevIndex, p.prevTerm) <==> Fits(log, p)
  {
  }

  predicate OnlyStores(s: Node, s': Node) {
    s' == s.(log := s'.log, commit := s'.commit)
  }

  lemma Accepts(s: Node, a: Action)
    requires Ledger.TakesEntries(a)
    ensures var o := AcceptEntries(s, a.packet.src, a.packet.payload, a.env);
      OnlyStores(s, o.node) && Answered(s, a, o, true)
  {
    hide StoreAll;
    var p := a.packet.payload;
    Effects.StoreAllEffect(s, p.entries);
    var o := AcceptEntries(s, a.packet.src, p, a.env);
    assert o.sent[..|o.sent| - 1] == StoreAll(s, p.entries).sent;
  }

  lemma Rejects(s: Node, a: Action)
    requires Ledger.TakesEntries(a)
    ensures Answered(s, a, Out(s, [Rejection(s, a.packet.src, a.env)]), false)
  {
  }

  lemma AnsweredFrom(s: Node, s1: Node, a: Action, o: Out, accepted: bool)
    requires Ledger.TakesEntries(a) && Answered(s1, a, o, accepted)
    requires s1 == s.(role := s1.role, leader := s1.leader, electionDeadline := s1.electionDeadline)
    ensures Answered(s, a, o, accepted)
  {
  }

  lemma SameTimer(s: Node, s': Node, env: Env)
    requires TimerSet(s, env)
    requires s'.electionDeadline == s.electionDeadline && s'.protocol == s.protocol && s'.tie == s.tie
    ensures TimerSet(s', env)
  {
  }

  lemma Refuses(s: Node, a: Action)
    requires Ledger.TakesEntries(a) && a.packet.payload.term < s.term
    ensures Answered(s, a, Fire(s, a), false) && Fire(s, a).node == s
  {
    hide AcceptOrReject, StepDown;
  }

  /** Entries are always answered, last of all, with one packet to the sender: they
      are accepted exactly if the leader's term is current and the log holds the
      entry before them. Rejected ones change no entry and no commit index;
      accepted ones may raise it to the leader's, within the log. */
  lemma EntriesAnswered(s: Node, a: Action)
    requires Ledger.TakesEntries(a)
    ensures Answered(s, a, Fire(s, a), a.packet.payload.term >= s.term && Fits(s.log, a.packet.payload))
  {
    hide Answered, Fits, TimerSet, Fire;
    if a.packet.payload.term >= s.term { Obeys(s, a); } else { Refuses(s, a); }
  }

  // --------------------------------------------------------------- new terms

  /** A message whose handler compares the term it carries with the node's and
      steps down. */
  predicate BearsTerm(p: Payload) {
    p.RequestVote? || p.VoteResponse? || p.AppendEntries? || p.AppendResponse? || p.LivenessPing?
  }

  /** Whichever of these messages brings a newer term, the node is in that term
      afterwards, and neither leads nor stands. */
  lemma NewerTermAdopted(s: Node, a: Action)
    requires a.Deliver? && BearsTerm(a.packet.payload) && a.packet.payload.term > s.term
    ensures Fire(s, a).node.term == a.packet.payload.term && Fire(s, a).node.role == Humbled(s.role)
  {
    hide HandleRequestVote, HandleVoteResponse, HandleAppendEntries, HandleAppendResponse, HandlePing, StepDown,
      TimerSet, Deserves, Counting, Voters;
    var p := a.packet.payload;
    match p {
      case RequestVote(_, _, _, _, _) => VoteExactly(s, a);
      case VoteResponse(_, _, _, _) => VotesDecide(s, a);
      case AppendEntries(_, _, _, _, _, _) => EntriesObeyed(s, a);
      case AppendResponse(_, _, _, _, _, _) => AckHumbles(s, a);
      case LivenessPing(_, _) => PingObeyed(s, p, a.env);
      case _ => assert false;
    }
  }

  lemma AckHumbles(s: Node, a: Action)
    requires a.Deliver? && a.packet.payload.AppendResponse? && a.packet.payload.term > s.term
    ensures Fire(s, a).node.term == a.packet.payload.term && Fire(s, a).node.role == Humbled(s.role)
  {
    hide StepDown, CommitPoint, TimerSet;
    StepsDown(s, a.packet.payload.term, a.env);
  }

  // ---------------------------------------------------------- reconciliation

  /** The provisional entries of a log. */
  function Marked(log: Log): (m: set<nat>)
    ensures forall i :: i in m ==> i < |log|
  {
    set i: nat | i < |log| && log[i].epoch != 0
  }

  lemma {:induction false} ProvisionalSnoc(log: Log, e: LogEntry)
    ensures Provisional(log + [e]) == Provisional(log) + (if e.epoch != 0 then [e.command] else [])
    decreases |log|
  {
    if log == [] {
      assert log + [e] == [e];
    } else {
      ProvisionalSnoc(log[1..], e);
      assert (log + [e])[1..] == log[1..] + [e];
    }
  }

  /** What a cut part of the log gives to replay: one command for each provisional
      entry, in the order of the log. */
  lemma {:induction false} ProvisionalInOrder(log: Log)
    ensures |Provisional(log)| == |Marked(log)|
    ensures forall i :: i in Marked(log) ==>
      |Marked(log[..i])| < |Provisional(log)| && Provisional(log)[|Marked(log[..i])|] == log[i].command
    decreases |log|
  {
    if log != [] {
      var k := |log| - 1;
      var front, e := log[..k], log[k];
      ProvisionalInOrder(front);
      ProvisionalSnoc(front, e);
      assert log == front + [e];
      assert Marked(log) == Marked(front) + (if e.epoch != 0 then {k} else {});
      forall i | i in Marked(log)
        ensures |Marked(log[..i])| < |Provisional(log)| && Provisional(log)[|Marked(log[..i])|] == log[i].command
      {
        if i < k { assert log[..i] == front[..i]; }
      }
    }
  }

  /** The commands of a message that are new to the window, each once, in order. */
  ghost predicate Unseen(recent: seq<Command>, commands: seq<Command>, unseen: seq<Command>) {
    && (forall c :: c in unseen <==> c in commands && c !in recent)
    && Dedup.Distinct(unseen)
    && (forall i, j :: 0 <= i < j < |unseen| && unseen[i] in commands && unseen[j] in commands ==>
          Dedup.First(commands, unseen[i]) < Dedup.First(commands, unseen[j]))
  }

  /** A leader that is sent provisional commands creates entries that mean the
      unseen ones, in order: one each in raft and echo, at most one in echod. Nobody
      else does anything. */
  lemma UnseenReplayed(s: Node, a: Action)
    requires a.Deliver? && a.packet.payload.ReconcileBatch?
    ensures !Leads(s.role) ==> Fire(s, a) == Out(s, [])
    ensures Leads(s.role) ==> exists unseen ::
      Unseen(s.recent, a.packet.payload.commands, unseen) && Office.Replays(s, Fire(s, a).node, unseen)
  {
    hide HandleReconcile, Office.Replays, Unseen;
    if Leads(s.role) {
      var unseen := Screen(s.recent, a.packet.payload.commands).1;
      ScreenUnseen(s.recent, a.packet.payload.commands);
      ReplaysUnseen(s, a.packet.payload, a.env);
    } else {
      Ignored(s, a.packet.payload, a.env);
    }
  }

  lemma Ignored(s: Node, p: Payload, env: Env)
    requires p.ReconcileBatch? && !Leads(s.role)
    ensures HandleReconcile(s, p, env) == Out(s, [])
  {
  }

  lemma ScreenUnseen(recent: seq<Command>, commands: seq<Command>)
    ensures Unseen(recent, commands, Screen(recent, commands).1)
  {
    hide Screen;
    Dedup.ScreenKeepsUnseen(recent, commands);
  }

  lemma ReplaysUnseen(s: Node, p: Payload, env: Env)
    requires p.ReconcileBatch? && Leads(s.role)
    ensures Office.Replays(s, HandleReconcile(s, p, env).node, Screen(s.recent, p.commands).1)
  {
    hide Screen, Replicate, ReplicateAll, Tagged, Office.Replays;
    var unseen := Screen(s.recent, p.commands).1;
    var s2 := s.(recent := Trim(Screen(s.recent, p.commands).0), lastActivity := env.now);
    if p.commands == [] { Ledger.ScreenNothing(s.recent); }
    if unseen == [] {
      NothingReplayed(s, HandleReconcile(s, p, env).node);
    } else if s.protocol == EchoD && |unseen| > 1 {
      BatchReplayed(s, s2, unseen);
    } else {
      EachReplayed(s, s2, unseen);
    }
  }

  lemma NothingReplayed(s: Node, s': Node)
    requires s'.log == s.log
    ensures Office.Replays(s, s', [])
  {
    hide Ledger.FlatAll;
    assert s.log[|s.log|..] == [];
    assert Ledger.Recorded([]) == [];
  }

  lemma BatchReplayed(s: Node, s1: Node, unseen: seq<Command>)
    requires s1.log == s.log && s.protocol == EchoD && |unseen| > 1
    ensures Office.Replays(s, Replicate(s1, Batch(unseen, |unseen|), Reconcile).node, unseen)
  {
    hide Heartbeats, Ledger.FlatAll;
    var whole := Batch(unseen, |unseen|);
    var e := NewEntry(s1, whole, Reconcile);
    Office.OneBatch(unseen, whole);
    assert (s.log + [e])[|s.log|..] == [e];
    assert Ledger.Recorded([e]) == [whole];
  }

  lemma EachReplayed(s: Node, s1: Node, unseen: seq<Command>)
    requires s1.log == s.log && unseen != [] && (s.protocol == EchoD ==> |unseen| == 1)
    ensures Office.Replays(s, ReplicateAll(s1, Tagged(unseen, Reconcile)).node, unseen)
  {
    hide ReplicateAll, Tagged, Ledger.FlatAll;
    var proposals := Tagged(unseen, Reconcile);
    Ledger.ReplicateAllEntries(s1, proposals);
    Ledger.TaggedCommands(unseen, Reconcile);
    var created := Ledger.NewEntries(s1, proposals);
    assert (s.log + created)[|s.log|..] == created;
    assert Ledger.Recorded(created) == unseen;
  }
}
