/** Every move keeps the commit invariant, provided leaders count faithful
    acks only. */
module Commits {
  import opened Types
  import opened Handlers
  import opened Clusters
  import opened Invariants
  import opened Moves
  import Elections
  import Logs

  // ------------------------------------------------------------ monotonicity

  ghost predicate AcksGrow(c: Cluster, h: History, h': History) {
    forall v: NodeId, u: nat :: Acked(h, v, u) <= Acked(h', v, u)
      && (v in c.nodes && u < c.nodes[v].term ==> Acked(h', v, u) == Acked(h, v, u))
  }

  ghost predicate LogsGrow(h: History, h': History) {
    forall t :: t in h.termLog ==> t in h'.termLog && TermLogGrows(t, h.termLog[t], h'.termLog[t])
  }

  /** What every move respects: terms, acks, term logs and commits only grow,
      and a node's acks of the terms it has left are final. */
  ghost predicate Later(c: Cluster, h: History, c': Cluster, h': History) {
    && c'.nodes.Keys == c.nodes.Keys && |c'.nodes| == |c.nodes|
    && (forall v :: v in c.nodes ==> c'.nodes[v].term >= c.nodes[v].term)
    && AcksGrow(c, h, h') && LogsGrow(h, h')
    && (forall k :: k in h.committed ==> k in h'.committed)
  }

  lemma DeadStays(c: Cluster, h: History, c': Cluster, h': History, t: nat, n: nat)
    requires Later(c, h, c', h') && Dead(c, h, t, n)
    ensures Dead(c', h', t, n)
  {
    var q :| Abstains(c, h, q, t, n);
    forall v | v in q ensures c'.nodes[v].term > t && Acked(h', v, t) < n {
      assert v in c.nodes;
      assert Acked(h', v, t) == Acked(h, v, t);
    }
    assert Abstains(c', h', q, t, n);
  }

  lemma SurvivesStays(c: Cluster, h: History, c': Cluster, h': History, log: Log, log': Log, t: nat, n: nat)
    requires Later(c, h, c', h') && Survives(c, h, log, t, n) && log <= log'
    ensures Survives(c', h', log', t, n)
  {
    if Dead(c, h, t, n) { DeadStays(c, h, c', h', t, n); }
  }

  lemma CommitOkStays(h: History, h': History, log: Log, log': Log, commit: nat, t: nat, t': nat)
    requires CommitOk(h, log, commit, t) && log <= log' && t <= t' && LogsGrow(h, h')
    requires forall k :: k in h.committed ==> k in h'.committed
    ensures CommitOk(h', log', commit, t')
  {
    if commit != 0 {
      var k :| CoveredBy(h, log, commit, t, k);
      assert log'[..commit] == log[..commit];
      assert CoveredBy(h', log', commit, t', k);
    }
  }

  /** A committed entry is not dead: the quorums meet. */
  lemma CommittedLives(c: Cluster, h: History, k: (nat, nat))
    requires k in h.committed && CommittedOk(c, h, k)
    ensures !Dead(c, h, k.0, k.1)
  {
    if Dead(c, h, k.0, k.1) {
      var q :| Abstains(c, h, q, k.0, k.1);
      var v := Overlap(c, q, h.committed[k]);
      assert false;
    }
  }

  // ------------------------------------------------------- parts that follow

  lemma NodeCommitStays(c: Cluster, h: History, c': Cluster, h': History, m: NodeId)
    requires m in c.nodes && m in c'.nodes && c'.nodes[m] == c.nodes[m]
    requires CommitOf(c, h, m) && LogOf(c, h, m) && Later(c, h, c', h')
    requires Leads(c.nodes[m].role) ==> Acked(h', m, c.nodes[m].term) == Acked(h, m, c.nodes[m].term)
    ensures CommitOf(c', h', m)
  {
    var s := c.nodes[m];
    CommitOkStays(h, h', s.log, s.log, s.commit, s.term, s.term);
  }

  lemma PacketCommitStays(c: Cluster, h: History, c': Cluster, h': History, m: Packet)
    requires CommitPacket(h, m) && LogPacket(h, m) && Later(c, h, c', h') && h.termLog.Keys == h.elected.Keys
    ensures CommitPacket(h', m)
  {
    var p := m.payload;
    if p.AppendEntries? && !Overshoot(p) {
      assert TermLogGrows(p.term, h.termLog[p.term], h'.termLog[p.term]);
      var sent := h.termLog[p.term][..Covered(p)];
      assert sent == h'.termLog[p.term][..Covered(p)];
      CommitOkStays(h, h', sent, sent, p.leaderCommit, p.term, p.term);
    }
  }

  lemma CommittedStays(c: Cluster, h: History, c': Cluster, h': History, k: (nat, nat))
    requires k in h.committed && CommittedOk(c, h, k) && Later(c, h, c', h') && h'.committed[k] == h.committed[k]
    ensures CommittedOk(c', h', k)
  {
    forall v | v in h.committed[k] ensures Acked(h', v, k.0) >= k.1 {
      assert Acked(h, v, k.0) >= k.1;
    }
  }

  /** Node n makes a move: what the move must establish itself, and what follows
      for everything else. */
  ghost predicate Steps(c: Cluster, h: History, c': Cluster, h': History, n: NodeId, s': Node, ps: set<Packet>) {
    && Puts(c, c', n, s', ps) && Later(c, h, c', h')
    && (forall v, t :: (v, t) in h'.acked && (v, t) !in h.acked ==> v == n)
    && (forall v: NodeId, t: nat :: v != n ==> Acked(h', v, t) == Acked(h, v, t))
    && (forall k :: k in h'.committed && k in h.committed ==>
        h'.committed[k] == h.committed[k] || CommittedOk(c', h', k))
    && (forall k :: k in h'.committed && k !in h.committed ==> CommittedOk(c', h', k))
  }

  lemma AckedStays(c: Cluster, h: History, c': Cluster, h': History, v: NodeId, t: nat)
    requires (v, t) in h.acked && AckedOk(c, h, v, t) && Later(c, h, c', h')
    requires Acked(h', v, t) == Acked(h, v, t)
    ensures AckedOk(c', h', v, t)
  {
  }

  lemma NodeParts(c: Cluster, h: History, m: NodeId)
    requires LogInv(c, h) && CommitInv(c, h) && m in c.nodes
    ensures LogOf(c, h, m) && CommitOf(c, h, m)
  {
  }

  lemma PacketParts(c: Cluster, h: History, m: Packet)
    requires LogInv(c, h) && CommitInv(c, h) && m in c.msgs
    ensures LogPacket(h, m) && CommitPacket(h, m) && h.termLog.Keys == h.elected.Keys
  {
  }

  lemma AckParts(c: Cluster, h: History, v: NodeId, t: nat)
    requires CommitInv(c, h) && (v, t) in h.acked
    ensures AckedOk(c, h, v, t)
  {
  }

  lemma CommittedParts(c: Cluster, h: History, k: (nat, nat))
    requires CommitInv(c, h) && k in h.committed
    ensures CommittedOk(c, h, k)
  {
  }

  lemma Assemble(c: Cluster, h: History, c': Cluster, h': History, n: NodeId, s': Node, ps: set<Packet>)
    requires LogInv(c, h) && CommitInv(c, h) && Steps(c, h, c', h', n, s', ps)
    requires LeadersKeep(c', h') && AckersKeep(c', h') && CandidatesKeep(c', h')
    requires forall t :: (n, t) in h'.acked ==> AckedOk(c', h', n, t)
    requires CommitOf(c', h', n)
    requires forall m :: m in ps ==> CommitPacket(h', m)
    ensures CommitInv(c', h')
  {
    hide LogInv, LeadersKeep, AckersKeep, CandidatesKeep, AckedOk, CommittedOk, CommitOf, CommitPacket, Later,
      LogOf, LogPacket;
    forall v, t | (v, t) in h'.acked ensures AckedOk(c', h', v, t) {
      if v != n {
        AckParts(c, h, v, t);
        AckedStays(c, h, c', h', v, t);
      }
    }
    forall k | k in h'.committed ensures CommittedOk(c', h', k) {
      if k in h.committed && h'.committed[k] == h.committed[k] {
        CommittedParts(c, h, k);
        CommittedStays(c, h, c', h', k);
      }
    }
    forall m | m in c'.nodes ensures CommitOf(c', h', m) {
      if m != n {
        NodeParts(c, h, m);
        NodeCommitStays(c, h, c', h', m);
      }
    }
    forall m | m in c'.msgs ensures CommitPacket(h', m) {
      if m !in ps {
        PacketParts(c, h, m);
        PacketCommitStays(c, h, c', h', m);
      }
    }
  }

  // ------------------------------------------- moves that add no obligations

  /** Logs, acks and votes stay, so the three keeping properties carry over. */
  lemma KeepingStays(c: Cluster, h: History, c': Cluster, h': History)
    requires CommitInv(c, h) && Later(c, h, c', h')
    requires h'.termLog == h.termLog && h'.acked == h.acked
    requires forall v :: v in c.nodes ==> c.nodes[v].log <= c'.nodes[v].log
    ensures LeadersKeep(c', h') && AckersKeep(c', h')
  {
    hide Later, Survives;
    forall t: nat, u: nat, n: nat | Created(h', t, n) && u in h'.termLog && t < u
      ensures Survives(c', h', h'.termLog[u], t, n)
    {
      assert Created(h, t, n);
      SurvivesStays(c, h, c', h', h.termLog[u], h.termLog[u], t, n);
    }
    forall v: NodeId, t: nat, n: nat | v in c'.nodes && Created(h', t, n) && n <= Acked(h', v, t)
      ensures Survives(c', h', c'.nodes[v].log, t, n)
    {
      assert v in c.nodes.Keys by { LaterKeys(c, h, c', h'); }
      assert Created(h, t, n);
      SurvivesStays(c, h, c', h', c.nodes[v].log, c'.nodes[v].log, t, n);
    }
  }

  lemma LaterKeys(c: Cluster, h: History, c': Cluster, h': History)
    requires Later(c, h, c', h')
    ensures c'.nodes.Keys == c.nodes.Keys
  {
  }

  lemma CandidatesStay(c: Cluster, h: History, c': Cluster, h': History)
    requires CommitInv(c, h) && Later(c, h, c', h')
    requires h'.termLog == h.termLog && h'.cast == h.cast && h'.stood == h.stood
    requires forall v, u, t: nat :: (v, u) in h.cast && t < u ==> Acked(h', v, t) == Acked(h, v, t)
    ensures CandidatesKeep(c', h')
  {
    hide Later, Survives;
    forall v: NodeId, u: nat, t: nat, n: nat |
      (v, u) in h'.cast && (h'.cast[(v, u)], u) in h'.stood && Created(h', t, n) && t < u && n <= Acked(h', v, t)
      ensures Survives(c', h', h'.stood[(h'.cast[(v, u)], u)], t, n)
    {
      assert Created(h, t, n);
      var log := h.stood[(h.cast[(v, u)], u)];
      SurvivesStays(c, h, c', h', log, log, t, n);
    }
  }

  lemma SameHistoryLater(c: Cluster, h: History, c': Cluster, n: NodeId, s': Node, ps: set<Packet>)
    requires ElectionInv(c, h) && Puts(c, c', n, s', ps) && s'.term >= c.nodes[n].term
    ensures Later(c, h, c', h)
  {
    Elections.StillConfigured(c, c', n, s', ps);
  }

  /** Moves that leave the history and the node's log alone. */
  lemma PlainKeeps(c: Cluster, h: History, c': Cluster, n: NodeId, s': Node, ps: set<Packet>)
    requires Inv(c, h, true) && Puts(c, c', n, s', ps)
    requires s'.term >= c.nodes[n].term && s'.log == c.nodes[n].log
    requires CommitOf(c', h, n)
    requires forall m :: m in ps ==> CommitPacket(h, m)
    ensures CommitInv(c', h)
  {
    hide ElectionInv, LogInv, Later, CommitOf, CommitPacket, LeadersKeep, AckersKeep, CandidatesKeep, AckedOk,
      CommittedOk;
    SameHistoryLater(c, h, c', n, s', ps);
    KeepingStays(c, h, c', h);
    CandidatesStay(c, h, c', h);
    forall t | (n, t) in h.acked ensures AckedOk(c', h, n, t) {
      AckParts(c, h, n, t);
      AckedStays(c, h, c', h, n, t);
    }
    Assemble(c, h, c', h, n, s', ps);
  }

  lemma HarmlessCommit(h: History, m: Packet)
    requires Harmless(m)
    ensures CommitPacket(h, m)
  {
  }

  lemma QuietKeeps(c: Cluster, h: History, c': Cluster, h': History, n: NodeId, s': Node, ps: set<Packet>)
    requires Inv(c, h, true) && Quiet(c, h, c', h', n, s', ps)
    ensures CommitInv(c', h')
  {
    hide ElectionInv, LogInv, CommitInv, CommitPacket;
    NodeParts(c, h, n);
    CommitOkStays(h, h, s'.log, s'.log, s'.commit, c.nodes[n].term, s'.term);
    forall m | m in ps ensures CommitPacket(h, m) { HarmlessCommit(h, m); }
    PlainKeeps(c, h, c', n, s', ps);
  }

  lemma CollectKeeps(c: Cluster, h: History, c': Cluster, h': History, n: NodeId, s': Node, v: NodeId)
    requires Inv(c, h, true) && Collect(c, h, c', h', n, s', v)
    ensures CommitInv(c', h')
  {
    hide ElectionInv, LogInv, CommitInv;
    NodeParts(c, h, n);
    PlainKeeps(c, h, c', n, s', {});
  }

  lemma ReplicaCommit(h: History, m: Packet, s: Node)
    requires Replicates(m, s) && CommitOk(h, s.log, s.commit, s.term)
    requires s.term in h.termLog && h.termLog[s.term] == s.log
    ensures CommitPacket(h, m)
  {
    assert s.log[..|s.log|] == s.log;
  }

  lemma SpeakKeeps(c: Cluster, h: History, c': Cluster, h': History, n: NodeId, s': Node, ps: set<Packet>)
    requires Inv(c, h, true) && Speak(c, h, c', h', n, s', ps)
    ensures CommitInv(c', h')
  {
    hide ElectionInv, LogInv, CommitInv, CommitPacket, LogOf;
    NodeParts(c, h, n);
    Logs.LeaderLog(c, h, n);
    forall m | m in ps ensures CommitPacket(h, m) {
      if Harmless(m) { HarmlessCommit(h, m); } else { ReplicaCommit(h, m, c.nodes[n]); }
    }
    PlainKeeps(c, h, c', n, s', ps);
  }

  lemma MatchKeeps(c: Cluster, h: History, c': Cluster, h': History, n: NodeId, s': Node, p: NodeId, k: nat)
    requires Inv(c, h, true) && Match(c, h, c', h', n, s', p, k, true)
    ensures CommitInv(c', h')
  {
    hide ElectionInv, LogInv, CommitInv;
    NodeParts(c, h, n);
    PlainKeeps(c, h, c', n, s', {});
  }

  // --------------------------------------------------------------- elections

  /** Section 5.4.1 of the Raft paper: a log at least as up to date as one that
      holds an entry holds it too, or the entry can no longer be committed. */
  lemma UpToDateKeeps(c: Cluster, h: History, voter: Log, candidate: Log, x: nat, y: nat, t: nat, n: nat)
    requires Sound(h, voter, x) && Sound(h, candidate, y) && Has(voter, t, n)
    requires UpToDate(voter, |candidate|, LastTerm(candidate))
    requires LeadersKeep(c, h) && Created(h, t, n)
    requires forall u :: u in h.termLog ==> Sound(h, h.termLog[u], u)
    ensures Survives(c, h, candidate, t, n)
  {
    hide Dead;
    var i, j := |voter| - 1, |candidate| - 1;
    var last := LastTerm(candidate);
    assert SoundAt(h, voter, i) && voter[n - 1].term <= voter[i].term;
    assert candidate != [];
    assert SoundAt(h, candidate, j);
    assert candidate[..j + 1] == candidate;
    if last == LastTerm(voter) {
      assert voter[..i + 1] == voter;
      assert candidate[n - 1] == h.termLog[last][n - 1] == voter[n - 1];
    } else if Has(h.termLog[last], t, n) {
      assert Ordered(h.termLog[last]);
      assert candidate[j] == h.termLog[last][j];
      assert n - 1 <= j;
      assert candidate[n - 1] == h.termLog[last][n - 1];
    } else {
      assert Survives(c, h, h.termLog[last], t, n);
    }
  }

  lemma AckedSurvives(c: Cluster, h: History, v: NodeId, t: nat, n: nat)
    requires CommitInv(c, h) && v in c.nodes && Created(h, t, n) && n <= Acked(h, v, t)
    ensures Survives(c, h, c.nodes[v].log, t, n)
  {
  }

  lemma TermLogsSound(c: Cluster, h: History)
    requires LogInv(c, h)
    ensures forall u :: u in h.termLog ==> Sound(h, h.termLog[u], u)
  {
  }

  /** What a voter acknowledged survives in the log of the candidate it votes for. */
  lemma VoteKeeps(c: Cluster, h: History, v: NodeId, m: Packet, t: nat, n: nat)
    requires Inv(c, h, true) && v in c.nodes && m in c.msgs && m.payload.RequestVote?
    requires UpToDate(c.nodes[v].log, m.payload.lastIndex, m.payload.lastTerm)
    requires Created(h, t, n) && n <= Acked(h, v, t)
    requires (m.src, m.payload.term) in h.stood
    ensures Survives(c, h, h.stood[(m.src, m.payload.term)], t, n)
  {
    hide ElectionInv, LogInv, Dead, CommitOf, AckersKeep, CandidatesKeep;
    Logs.RequestIsSound(c, h, m);
    NodeParts(c, h, v);
    StoodParts(c, h, (m.src, m.payload.term));
    TermLogsSound(c, h);
    AckedSurvives(c, h, v, t, n);
    if Has(c.nodes[v].log, t, n) {
      UpToDateKeeps(c, h, c.nodes[v].log, h.stood[(m.src, m.payload.term)], c.nodes[v].term, m.payload.term, t, n);
    }
  }

  lemma StoodParts(c: Cluster, h: History, k: (NodeId, nat))
    requires LogInv(c, h) && k in h.stood
    ensures Sound(h, h.stood[k], k.1)
  {
    assert StoodOk(c, h, k);
  }

  lemma CandidateParts(c: Cluster, h: History, v: NodeId, u: nat, t: nat, n: nat)
    requires CommitInv(c, h) && (v, u) in h.cast && (h.cast[(v, u)], u) in h.stood
    requires Created(h, t, n) && t < u && n <= Acked(h, v, t)
    ensures Survives(c, h, h.stood[(h.cast[(v, u)], u)], t, n)
  {
  }

  /** One new vote, of node n in its new term for w; the rest carries over. */
  lemma NewVoteKeeps(c: Cluster, h: History, c': Cluster, h': History, n: NodeId, u: nat, w: NodeId)
    requires CommitInv(c, h) && LogInv(c, h) && Later(c, h, c', h')
    requires h'.termLog == h.termLog && h'.acked == h.acked && h'.cast == h.cast[(n, u) := w]
    requires forall k :: k in h.stood ==> k in h'.stood && h'.stood[k] == h.stood[k]
    requires (w, u) in h'.stood
    requires forall t: nat, i: nat :: Created(h, t, i) && t < u && i <= Acked(h, n, t) ==>
        Survives(c, h, h'.stood[(w, u)], t, i)
    ensures CandidatesKeep(c', h')
  {
    hide Later, Survives, Created, LogInv, CommitInv;
    forall v: NodeId, u': nat, t: nat, i: nat |
      (v, u') in h'.cast && (h'.cast[(v, u')], u') in h'.stood && Created(h', t, i) && t < u' && i <= Acked(h', v, t)
      ensures Survives(c', h', h'.stood[(h'.cast[(v, u')], u')], t, i)
    {
      var log := h'.stood[(h'.cast[(v, u')], u')];
      CreatedSame(h, h', t, i);
      if (v, u') != (n, u) {
        Logs.Keys(c, h);
        assert (v, u') in h.cast && h.cast[(v, u')] == h'.cast[(v, u')];
        CandidateParts(c, h, v, u', t, i);
      }
      SurvivesStays(c, h, c', h', log, log, t, i);
    }
  }

  lemma CreatedSame(h: History, h': History, t: nat, n: nat)
    requires h'.termLog == h.termLog
    ensures Created(h', t, n) == Created(h, t, n)
  {
  }

  /** Assembly for the two moves that cast a vote. */
  lemma VoteMoveKeeps(c: Cluster, h: History, c': Cluster, h': History, n: NodeId, s': Node, ps: set<Packet>)
    requires Inv(c, h, true) && Puts(c, c', n, s', ps)
    requires s'.term >= c.nodes[n].term && s'.log == c.nodes[n].log
    requires h' == h.(cast := h'.cast, stood := h'.stood)
    requires CandidatesKeep(c', h') && CommitOf(c', h', n)
    requires forall m :: m in ps ==> CommitPacket(h', m)
    ensures CommitInv(c', h')
  {
    hide ElectionInv, LogInv, CommitOf, CommitPacket, LeadersKeep, AckersKeep, CandidatesKeep, Later, AckedOk,
      CommittedOk;
    VoteMoveLater(c, h, c', h', n, s', ps);
    KeepingStays(c, h, c', h');
    forall t | (n, t) in h'.acked ensures AckedOk(c', h', n, t) {
      AckParts(c, h, n, t);
      AckedStays(c, h, c', h', n, t);
    }
    Assemble(c, h, c', h', n, s', ps);
  }

  lemma VoteMoveLater(c: Cluster, h: History, c': Cluster, h': History, n: NodeId, s': Node, ps: set<Packet>)
    requires ElectionInv(c, h) && Puts(c, c', n, s', ps) && s'.term >= c.nodes[n].term
    requires h' == h.(cast := h'.cast, stood := h'.stood)
    ensures Later(c, h, c', h')
  {
    Elections.StillConfigured(c, c', n, s', ps);
  }

  lemma CampaignKeeps(c: Cluster, h: History, c': Cluster, h': History, n: NodeId, s': Node, ps: set<Packet>)
    requires Inv(c, h, true) && Campaign(c, h, c', h', n, s', ps)
    ensures CommitInv(c', h')
  {
    hide ElectionInv, LogInv, CommitInv, CandidatesKeep, Survives, Later, LogOf;
    NodeParts(c, h, n);
    Logs.FirstCandidacy(c, h, n, s'.term);
    VoteMoveLater(c, h, c', h', n, s', ps);
    CommitOkStays(h, h', s'.log, s'.log, s'.commit, c.nodes[n].term, s'.term);
    forall t: nat, i: nat | Created(h, t, i) && t < s'.term && i <= Acked(h, n, t)
      ensures Survives(c, h, s'.log, t, i)
    {
      AckedSurvives(c, h, n, t, i);
    }
    NewVoteKeeps(c, h, c', h', n, s'.term, n);
    VoteMoveKeeps(c, h, c', h', n, s', ps);
  }

  lemma GrantKeeps(c: Cluster, h: History, c': Cluster, h': History, n: NodeId, s': Node, ps: set<Packet>, m: Packet)
    requires Inv(c, h, true) && Grant(c, h, c', h', n, s', ps, m)
    ensures CommitInv(c', h')
  {
    hide ElectionInv, LogInv, CommitInv, CandidatesKeep, Survives, Later, LogOf;
    Logs.RequestIsSound(c, h, m);
    NodeParts(c, h, n);
    VoteMoveLater(c, h, c', h', n, s', ps);
    CommitOkStays(h, h', s'.log, s'.log, s'.commit, s'.term, s'.term);
    forall t: nat, i: nat | Created(h, t, i) && t < s'.term && i <= Acked(h, n, t)
      ensures Survives(c, h, h.stood[(m.src, s'.term)], t, i)
    {
      VoteKeeps(c, h, n, m, t, i);
    }
    NewVoteKeeps(c, h, c', h', n, s'.term, m.src);
    VoteMoveKeeps(c, h, c', h', n, s', ps);
  }

  lemma NoAckAhead(c: Cluster, h: History, v: NodeId, t: nat)
    requires CommitInv(c, h) && v in c.nodes && (t > c.nodes[v].term || t !in h.termLog)
    ensures Acked(h, v, t) == 0
  {
    if (v, t) in h.acked { AckParts(c, h, v, t); assert false; }
  }

  lemma AckWithinLog(c: Cluster, h: History, v: NodeId, t: nat)
    requires CommitInv(c, h) && t in h.termLog
    ensures Acked(h, v, t) <= |h.termLog[t]|
  {
    if (v, t) in h.acked { AckParts(c, h, v, t); }
  }

  lemma CastParts(c: Cluster, h: History, v: NodeId, u: nat)
    requires ElectionInv(c, h) && (v, u) in h.cast
    ensures v in c.nodes && u <= c.nodes[v].term
  {
    assert CastOk(c, h, v, u);
  }

  // ---------------------------------------------------------- taking office

  /** What a candidate's voters acknowledged survives in its log. */
  lemma WinnerKeeps(c: Cluster, h: History, n: NodeId, t: nat, i: nat)
    requires Inv(c, h, true) && n in c.nodes
    requires c.nodes[n].role == Candidate && Majority(|c.nodes[n].votes|, c.nodes[n])
    requires Created(h, t, i) && t < c.nodes[n].term
    ensures Survives(c, h, c.nodes[n].log, t, i)
  {
    hide LogInv, CommitInv, Created, Has;
    var s := c.nodes[n];
    Elections.VotesAreQuorum(c, h, n);
    assert VotesOf(c, h, n);
    NodeParts(c, h, n);
    Logs.Keys(c, h);
    if v :| v in s.votes && i <= Acked(h, v, t) {
      assert VotedFor(h, v, s.term, n);
      CandidateParts(c, h, v, s.term, t, i);
    } else {
      forall v | v in s.votes.Keys ensures c.nodes[v].term > t && Acked(h, v, t) < i {
        assert VotedFor(h, v, s.term, n);
        CastParts(c, h, v, s.term);
      }
      assert Abstains(c, h, s.votes.Keys, t, i);
    }
  }

  lemma NoNewEntries(h: History, h': History, log: Log, u: nat)
    requires Sound(h, log, u) && u !in h.termLog && h'.termLog == h.termLog[u := log]
    ensures forall t: nat, i: nat :: Created(h', t, i) ==> Created(h, t, i)
  {
    forall t: nat, i: nat | Created(h', t, i) ensures Created(h, t, i) {
      if t == u { assert SoundAt(h, log, i - 1); }
    }
  }

  lemma CandidateLog(c: Cluster, h: History, n: NodeId)
    requires LogInv(c, h) && n in c.nodes
    ensures Sound(h, c.nodes[n].log, c.nodes[n].term)
  {
    hide Sound;
    assert LogOf(c, h, n);
  }

  lemma ElectGrows(c: Cluster, h: History, h': History, n: NodeId, u: nat, log: Log)
    requires n in c.nodes && u == c.nodes[n].term && u !in h.termLog && Acked(h, n, u) == 0
    requires h'.termLog == h.termLog[u := log] && h'.acked == h.acked[(n, u) := |log|]
    ensures AcksGrow(c, h, h') && LogsGrow(h, h')
  {
  }

  lemma ElectLater(c: Cluster, h: History, c': Cluster, h': History, n: NodeId, s': Node)
    requires Inv(c, h, true) && Elect(c, h, c', h', n, s')
    ensures s'.term !in h.termLog && Later(c, h, c', h')
    ensures forall t: nat, i: nat :: Created(h', t, i) ==> Created(h, t, i)
  {
    hide ElectionInv, LogInv, CommitInv, Created, Sound, AcksGrow, LogsGrow, CommitOf, LogOf;
    Elections.VotesAreQuorum(c, h, n);
    Logs.Keys(c, h);
    Elections.NodesStay(c, h, c', n, s', {});
    NoAckAhead(c, h, n, s'.term);
    CandidateLog(c, h, n);
    NoNewEntries(h, h', s'.log, s'.term);
    ElectGrows(c, h, h', n, s'.term, s'.log);
  }

  lemma ElectKeepsLeaders(c: Cluster, h: History, c': Cluster, h': History, n: NodeId, s': Node)
    requires Inv(c, h, true) && Elect(c, h, c', h', n, s')
    ensures LeadersKeep(c', h')
  {
    hide ElectionInv, LogInv, Later, Survives, AckersKeep, CandidatesKeep;
    ElectLater(c, h, c', h', n, s');
    forall t: nat, u: nat, i: nat | Created(h', t, i) && u in h'.termLog && t < u
      ensures Survives(c', h', h'.termLog[u], t, i)
    {
      assert Created(h, t, i);
      if u == s'.term { WinnerKeeps(c, h, n, t, i); }
      SurvivesStays(c, h, c', h', h'.termLog[u], h'.termLog[u], t, i);
    }
  }

  lemma ElectKeepsVoters(c: Cluster, h: History, c': Cluster, h': History, n: NodeId, s': Node)
    requires Inv(c, h, true) && Elect(c, h, c', h', n, s')
    ensures AckersKeep(c', h') && CandidatesKeep(c', h')
  {
    hide ElectionInv, LogInv, CommitInv, Later, Survives;
    ElectLater(c, h, c', h', n, s');
    LaterKeys(c, h, c', h');
    forall v: NodeId, t: nat, i: nat | v in c'.nodes && Created(h', t, i) && i <= Acked(h', v, t)
      ensures Survives(c', h', c'.nodes[v].log, t, i)
    {
      assert v in c.nodes.Keys && Created(h, t, i);
      AckedSurvives(c, h, v, t, i);
      SurvivesStays(c, h, c', h', c.nodes[v].log, c'.nodes[v].log, t, i);
    }
    forall v: NodeId, u: nat, t: nat, i: nat |
      (v, u) in h'.cast && (h'.cast[(v, u)], u) in h'.stood && Created(h', t, i) && t < u && i <= Acked(h', v, t)
      ensures Survives(c', h', h'.stood[(h'.cast[(v, u)], u)], t, i)
    {
      assert Created(h, t, i);
      CandidateParts(c, h, v, u, t, i);
      var log := h.stood[(h.cast[(v, u)], u)];
      SurvivesStays(c, h, c', h', log, log, t, i);
    }
  }

  lemma OwnAcks(c: Cluster, h: History, c': Cluster, h': History, n: NodeId, t0: nat)
    requires CommitInv(c, h) && Later(c, h, c', h') && n in c.nodes
    requires forall t :: t != t0 ==> Acked(h', n, t) == Acked(h, n, t) && ((n, t) in h'.acked ==> (n, t) in h.acked)
    requires t0 in h'.termLog && t0 <= c'.nodes[n].term && Acked(h', n, t0) <= |h'.termLog[t0]|
    ensures forall t :: (n, t) in h'.acked ==> AckedOk(c', h', n, t)
  {
    forall t | (n, t) in h'.acked ensures AckedOk(c', h', n, t) {
      if t != t0 {
        AckParts(c, h, n, t);
        AckedStays(c, h, c', h', n, t);
      }
    }
  }

  lemma ElectKeeps(c: Cluster, h: History, c': Cluster, h': History, n: NodeId, s': Node)
    requires Inv(c, h, true) && Elect(c, h, c', h', n, s')
    ensures CommitInv(c', h')
  {
    hide ElectionInv, LogInv, CommitInv, LeadersKeep, AckersKeep, CandidatesKeep, LogOf, Later, AckedOk,
      CommittedOk, CommitPacket, Created;
    ElectLater(c, h, c', h', n, s');
    ElectKeepsLeaders(c, h, c', h', n, s');
    ElectKeepsVoters(c, h, c', h', n, s');
    OwnAcks(c, h, c', h', n, s'.term);
    NodeParts(c, h, n);
    CommitOkStays(h, h', s'.log, s'.log, s'.commit, s'.term, s'.term);
    LaterKeys(c, h, c', h');
    assert CommitOf(c', h', n);
    Assemble(c, h, c', h', n, s', {});
  }

  // -------------------------------------------------------- a leader appends

  lemma ExtendLater(c: Cluster, h: History, c': Cluster, h': History, n: NodeId, s': Node, e: LogEntry)
    requires Inv(c, h, true) && Extend(c, h, c', h', n, s', e)
    ensures Later(c, h, c', h')
    ensures s'.term in h.termLog && h.termLog[s'.term] == c.nodes[n].log && Acked(h, n, s'.term) == |c.nodes[n].log|
    ensures forall t: nat, i: nat :: Created(h', t, i) ==> Created(h, t, i) || (t == s'.term && i == |s'.log|)
  {
    hide ElectionInv, LogInv, CommitInv, Sound, CommitOk, LogOf, Created, AcksGrow, LogsGrow;
    Elections.NodesStay(c, h, c', n, s', {});
    Logs.LeaderLog(c, h, n);
    NodeParts(c, h, n);
    ExtendGrows(c, h, h', n, s', e);
  }

  lemma ExtendGrows(c: Cluster, h: History, h': History, n: NodeId, s': Node, e: LogEntry)
    requires n in c.nodes && s'.term == c.nodes[n].term && e.term == s'.term
    requires s'.term in h.termLog && s'.log == h.termLog[s'.term] + [e]
    requires Acked(h, n, s'.term) == |h.termLog[s'.term]|
    requires h'.termLog == h.termLog[s'.term := s'.log] && h'.acked == h.acked[(n, s'.term) := |s'.log|]
    ensures AcksGrow(c, h, h') && LogsGrow(h, h')
    ensures forall t: nat, i: nat :: Created(h', t, i) ==> Created(h, t, i) || (t == s'.term && i == |s'.log|)
  {
  }

  lemma WinParts(c: Cluster, h: History, u: nat)
    requires ElectionInv(c, h) && LogInv(c, h) && u in h.termLog
    ensures u in h.elected && WinOk(c, h, u)
  {
  }

  /** A later leader's voters have left the term without the new entry. */
  lemma NewEntryIsDead(c: Cluster, h: History, c': Cluster, h': History, n: NodeId, s': Node, e: LogEntry, u: nat)
    requires Inv(c, h, true) && Extend(c, h, c', h', n, s', e) && u in h.termLog && s'.term < u
    ensures Dead(c', h', s'.term, |s'.log|)
  {
    hide ElectionInv, LogInv, CommitInv, Later, LogOf, Created, Survives;
    ExtendLater(c, h, c', h', n, s', e);
    WinParts(c, h, u);
    var q := h.elected[u].voters;
    forall v | v in q ensures c'.nodes[v].term > s'.term && Acked(h', v, s'.term) < |s'.log| {
      assert VotedFor(h, v, u, h.elected[u].leader);
      CastParts(c, h, v, u);
      AckWithinLog(c, h, v, s'.term);
    }
    assert Abstains(c', h', q, s'.term, |s'.log|);
  }

  lemma LeaderParts(c: Cluster, h: History, t: nat, u: nat, i: nat)
    requires CommitInv(c, h) && Created(h, t, i) && u in h.termLog && t < u
    ensures Survives(c, h, h.termLog[u], t, i)
  {
  }

  lemma ExtendKeepsLeaders(c: Cluster, h: History, c': Cluster, h': History, n: NodeId, s': Node, e: LogEntry)
    requires Inv(c, h, true) && Extend(c, h, c', h', n, s', e)
    ensures LeadersKeep(c', h')
  {
    hide ElectionInv, LogInv, CommitInv, Later, Has, Dead;
    ExtendLater(c, h, c', h', n, s', e);
    forall t: nat, u: nat, i: nat | Created(h', t, i) && u in h'.termLog && t < u
      ensures Survives(c', h', h'.termLog[u], t, i)
    {
      if Created(h, t, i) {
        LeaderParts(c, h, t, u, i);
        SurvivesStays(c, h, c', h', h.termLog[u], h'.termLog[u], t, i);
      } else {
        NewEntryIsDead(c, h, c', h', n, s', e, u);
      }
    }
  }

  lemma ExtendKeepsAckers(c: Cluster, h: History, c': Cluster, h': History, n: NodeId, s': Node, e: LogEntry)
    requires Inv(c, h, true) && Extend(c, h, c', h', n, s', e)
    ensures AckersKeep(c', h')
  {
    hide ElectionInv, LogInv, CommitInv, Later, Dead;
    ExtendLater(c, h, c', h', n, s', e);
    LaterKeys(c, h, c', h');
    forall v: NodeId, t: nat, i: nat | v in c'.nodes && Created(h', t, i) && i <= Acked(h', v, t)
      ensures Survives(c', h', c'.nodes[v].log, t, i)
    {
      if v == n && t == s'.term {
      } else {
        assert v in c.nodes.Keys;
        if t == s'.term { AckWithinLog(c, h, v, t); }
        AckedSurvives(c, h, v, t, i);
        SurvivesStays(c, h, c', h', c.nodes[v].log, c'.nodes[v].log, t, i);
      }
    }
  }

  lemma ExtendKeepsCandidates(c: Cluster, h: History, c': Cluster, h': History, n: NodeId, s': Node, e: LogEntry)
    requires Inv(c, h, true) && Extend(c, h, c', h', n, s', e)
    ensures CandidatesKeep(c', h')
  {
    hide ElectionInv, LogInv, CommitInv, Later, Dead, Has;
    ExtendLater(c, h, c', h', n, s', e);
    forall v: NodeId, u: nat, t: nat, i: nat |
      (v, u) in h'.cast && (h'.cast[(v, u)], u) in h'.stood && Created(h', t, i) && t < u && i <= Acked(h', v, t)
      ensures Survives(c', h', h'.stood[(h'.cast[(v, u)], u)], t, i)
    {
      CastParts(c, h, v, u);
      if t == s'.term { AckWithinLog(c, h, v, t); }
      CandidateParts(c, h, v, u, t, i);
      var log := h.stood[(h.cast[(v, u)], u)];
      SurvivesStays(c, h, c', h', log, log, t, i);
    }
  }

  lemma ExtendKeeps(c: Cluster, h: History, c': Cluster, h': History, n: NodeId, s': Node, e: LogEntry)
    requires Inv(c, h, true) && Extend(c, h, c', h', n, s', e)
    ensures CommitInv(c', h')
  {
    hide ElectionInv, LogInv, CommitInv, LeadersKeep, AckersKeep, CandidatesKeep, LogOf, Created, Later, AckedOk,
      CommittedOk, CommitOf, CommitPacket;
    ExtendLater(c, h, c', h', n, s', e);
    ExtendKeepsLeaders(c, h, c', h', n, s', e);
    ExtendKeepsAckers(c, h, c', h', n, s', e);
    ExtendKeepsCandidates(c, h, c', h', n, s', e);
    OwnAcks(c, h, c', h', n, s'.term);
    NodeParts(c, h, n);
    CommitOkStays(h, h', c.nodes[n].log, s'.log, s'.commit, s'.term, s'.term);
    LaterKeys(c, h, c', h');
    OtherAcksStay(c, h, c', h', n, s'.term);
    ExtendCommit(c, h, c', h', n, s', e);
    Assemble(c, h, c', h', n, s', {});
  }

  lemma ExtendCommit(c: Cluster, h: History, c': Cluster, h': History, n: NodeId, s': Node, e: LogEntry)
    requires Extend(c, h, c', h', n, s', e) && CommitOf(c, h, n) && c'.nodes.Keys == c.nodes.Keys
    requires CommitOk(h', s'.log, s'.commit, s'.term)
    ensures CommitOf(c', h', n)
  {
  }

  lemma OtherAcksStay(c: Cluster, h: History, c': Cluster, h': History, n: NodeId, t: nat)
    requires h'.acked.Keys == h.acked.Keys + {(n, t)}
    requires forall k :: k in h.acked && k != (n, t) ==> h'.acked[k] == h.acked[k]
    ensures forall v: NodeId, u: nat :: (v, u) != (n, t) ==> Acked(h', v, u) == Acked(h, v, u)
  {
  }

  // ------------------------------------------------------ a follower accepts

  lemma AcceptLater(c: Cluster, h: History, c': Cluster, h': History, n: NodeId, s': Node, ps: set<Packet>, m: Packet)
    requires Inv(c, h, true) && Accept(c, h, c', h', n, s', ps, m)
    ensures Later(c, h, c', h')
  {
    hide ElectionInv, LogInv, CommitInv, Merge;
    Elections.NodesStay(c, h, c', n, s', ps);
  }

  /** The part of a term's log that a packet carries holds every entry of an
      earlier term that the whole log holds. */
  lemma SentHolds(h: History, m: Packet, t: nat, i: nat)
    requires m.payload.AppendEntries? && AppendPacket(h, m) && !Overshoot(m.payload)
    requires Has(h.termLog[m.payload.term], t, i) && t < m.payload.term
    ensures Has(h.termLog[m.payload.term][..Covered(m.payload)], t, i)
  {
  }

  /** An entry of the packet's own term that the node acknowledged stays. */
  lemma MergeHolds(h: History, log: Log, w: nat, k: nat, i: nat)
    requires Sound(h, log, w) && w in h.termLog && k <= |h.termLog[w]|
    requires Has(h.termLog[w], w, i) && (i <= k || Has(log, w, i))
    ensures Has(Merge(log, h.termLog[w][..k]), w, i)
  {
    if i > k {
      assert SoundAt(h, log, i - 1);
      assert h.termLog[w][..k] <= log;
    }
  }

  lemma AcceptKeepsAcker(c: Cluster, h: History, c': Cluster, h': History, n: NodeId, s': Node, ps: set<Packet>,
                         m: Packet, t: nat, i: nat)
    requires Inv(c, h, true) && Accept(c, h, c', h', n, s', ps, m)
    requires Created(h, t, i) && i <= Acked(h', n, t)
    ensures Survives(c, h, s'.log, t, i)
  {
    hide ElectionInv, LogInv, CommitInv, Dead, Sound;
    var s := c.nodes[n];
    NodeParts(c, h, n);
    PacketParts(c, h, m);
    if t > s.term { NoAckAhead(c, h, n, t); }
    if i <= Acked(h, n, t) { AckedSurvives(c, h, n, t, i); }
    if t < s.term {
      LeaderParts(c, h, t, s.term, i);
      if Has(h.termLog[s.term], t, i) { SentHolds(h, m, t, i); }
    } else if i <= Covered(m.payload) || Has(s.log, t, i) {
      MergeHolds(h, s.log, t, Covered(m.payload), i);
    }
  }

  lemma AcceptKeepsAckers(c: Cluster, h: History, c': Cluster, h': History, n: NodeId, s': Node, ps: set<Packet>,
                          m: Packet)
    requires Inv(c, h, true) && Accept(c, h, c', h', n, s', ps, m)
    ensures LeadersKeep(c', h') && AckersKeep(c', h')
  {
    hide ElectionInv, LogInv, CommitInv, Later, Survives, Created, Merge, Learn;
    AcceptLater(c, h, c', h', n, s', ps, m);
    LaterKeys(c, h, c', h');
    forall t: nat, u: nat, i: nat | Created(h', t, i) && u in h'.termLog && t < u
      ensures Survives(c', h', h'.termLog[u], t, i)
    {
      CreatedSame(h, h', t, i);
      LeaderParts(c, h, t, u, i);
      SurvivesStays(c, h, c', h', h.termLog[u], h.termLog[u], t, i);
    }
    forall v: NodeId, t: nat, i: nat | v in c'.nodes && Created(h', t, i) && i <= Acked(h', v, t)
      ensures Survives(c', h', c'.nodes[v].log, t, i)
    {
      CreatedSame(h, h', t, i);
      if v == n {
        AcceptKeepsAcker(c, h, c', h', n, s', ps, m, t, i);
      } else {
        assert v in c.nodes.Keys;
        AckedSurvives(c, h, v, t, i);
      }
      SurvivesStays(c, h, c', h', c'.nodes[v].log, c'.nodes[v].log, t, i);
    }
  }

  lemma AcceptKeepsCandidates(c: Cluster, h: History, c': Cluster, h': History, n: NodeId, s': Node,
                              ps: set<Packet>, m: Packet)
    requires Inv(c, h, true) && Accept(c, h, c', h', n, s', ps, m)
    ensures CandidatesKeep(c', h')
  {
    hide ElectionInv, LogInv, CommitInv, Later, Merge, Learn;
    AcceptLater(c, h, c', h', n, s', ps, m);
    forall v, u, t: nat | (v, u) in h.cast && t < u ensures Acked(h', v, t) == Acked(h, v, t) {
      CastParts(c, h, v, u);
    }
    CandidatesStay(c, h, c', h');
  }

  /** The commit index still lies within what is committed after the log has
      been replaced by the leader's. */
  lemma MergeCommitted(c: Cluster, h: History, log: Log, commit: nat, m: Packet)
    requires Inv(c, h, true) && m in c.msgs && m.payload.AppendEntries? && !Overshoot(m.payload)
    requires AppendPacket(h, m) && CommitOk(h, log, commit, m.payload.term)
    ensures CommitOk(h, Merge(log, h.termLog[m.payload.term][..Covered(m.payload)]), commit, m.payload.term)
  {
    hide ElectionInv, LogInv, CommitInv, Sound, Dead;
    var w, sent := m.payload.term, h.termLog[m.payload.term][..Covered(m.payload)];
    if commit != 0 && !(sent <= log) {
      var k: (nat, nat) :| CoveredBy(h, log, commit, w, k);
      CommittedParts(c, h, k);
      CommittedLives(c, h, k);
      if k.0 < w {
        LeaderParts(c, h, k.0, w, k.1);
        SentHolds(h, m, k.0, k.1);
        TermLogPrefix(c, h, w, k.1);
        assert sent[..commit] == h.termLog[w][..k.1][..commit];
      } else {
        assert log[..commit] <= h.termLog[w];
        assert commit <= |sent|;
        assert sent[..commit] == h.termLog[w][..commit];
      }
      assert CoveredBy(h, sent, commit, w, k);
    }
  }

  lemma TermLogPrefix(c: Cluster, h: History, w: nat, i: nat)
    requires LogInv(c, h) && w in h.termLog && 1 <= i <= |h.termLog[w]|
    ensures h.termLog[w][i - 1].term in h.termLog && h.termLog[w][..i] <= h.termLog[h.termLog[w][i - 1].term]
  {
    assert Sound(h, h.termLog[w], w);
    assert SoundAt(h, h.termLog[w], i - 1);
  }

  lemma AcceptKeepsCommit(c: Cluster, h: History, c': Cluster, h': History, n: NodeId, s': Node, ps: set<Packet>,
                          m: Packet)
    requires Inv(c, h, true) && Accept(c, h, c', h', n, s', ps, m)
    ensures CommitOf(c', h', n)
  {
    hide ElectionInv, LogInv, CommitInv, LogOf, CoveredBy;
    var s := c.nodes[n];
    var sent := h.termLog[s.term][..Covered(m.payload)];
    NodeParts(c, h, n);
    PacketParts(c, h, m);
    MergeCommitted(c, h, s.log, s.commit, m);
    AckIrrelevant(h, h', s'.log, s.commit, s.term);
    if m.payload.leaderCommit > s.commit {
      CommitWithin(h, sent, m.payload.leaderCommit, s.term);
      CommitOkStays(h, h, sent, s'.log, m.payload.leaderCommit, s.term, s.term);
      AckIrrelevant(h, h', s'.log, m.payload.leaderCommit, s.term);
    }
  }

  lemma CommitWithin(h: History, log: Log, commit: nat, t: nat)
    requires CommitOk(h, log, commit, t)
    ensures commit <= |log|
  {
  }

  lemma AckIrrelevant(h: History, h': History, log: Log, commit: nat, t: nat)
    requires CommitOk(h, log, commit, t) && h' == h.(acked := h'.acked)
    ensures CommitOk(h', log, commit, t)
  {
    CommitOkStays(h, h', log, log, commit, t, t);
  }

  lemma AcceptKeeps(c: Cluster, h: History, c': Cluster, h': History, n: NodeId, s': Node, ps: set<Packet>, m: Packet)
    requires Inv(c, h, true) && Accept(c, h, c', h', n, s', ps, m)
    ensures CommitInv(c', h')
  {
    hide ElectionInv, LogInv, CommitInv, LeadersKeep, AckersKeep, CandidatesKeep, CommitOf, Merge, Learn, Later,
      AckedOk, CommittedOk;
    AcceptLater(c, h, c', h', n, s', ps, m);
    AcceptKeepsAckers(c, h, c', h', n, s', ps, m);
    AcceptKeepsCandidates(c, h, c', h', n, s', ps, m);
    AcceptKeepsCommit(c, h, c', h', n, s', ps, m);
    AckWithinLog(c, h, n, s'.term);
    OwnAcks(c, h, c', h', n, s'.term);
    Assemble(c, h, c', h', n, s', ps);
  }

  // -------------------------------------------------------- a leader commits

  lemma CommitQuorum(c: Cluster, h: History, c': Cluster, h': History, n: NodeId, s': Node, k: nat, q: set<NodeId>)
    requires n in c.nodes && c'.nodes.Keys == c.nodes.Keys && |c'.nodes| == |c.nodes| && CommitOf(c, h, n)
    requires c.nodes[n].role == Leader && Has(c.nodes[n].log, s'.term, k) && s'.term == c.nodes[n].term
    requires s'.term in h.termLog && h.termLog[s'.term] == c.nodes[n].log
    requires Quorum(c, q) && n in q
    requires forall p :: p in q && p != n ==> p in c.nodes[n].matchIndex && c.nodes[n].matchIndex[p] >= k
    requires h' == h.(committed := h.committed[(s'.term, k) := q])
    ensures CommittedOk(c', h', (s'.term, k))
  {
  }

  lemma CommitLater(c: Cluster, h: History, c': Cluster, h': History, n: NodeId, s': Node, k: nat, q: set<NodeId>)
    requires ElectionInv(c, h) && Commit(c, h, c', h', n, s', k, q)
    ensures Later(c, h, c', h')
  {
    hide ElectionInv;
    Elections.NodesStay(c, h, c', n, s', {});
  }

  lemma CommitCommit(c: Cluster, h: History, c': Cluster, h': History, n: NodeId, s': Node, k: nat, q: set<NodeId>)
    requires Commit(c, h, c', h', n, s', k, q) && CommitOf(c, h, n) && c'.nodes.Keys == c.nodes.Keys
    requires s'.term in h.termLog && h.termLog[s'.term] == s'.log
    ensures CommitOf(c', h', n)
  {
    assert CoveredBy(h', s'.log, k, s'.term, (s'.term, k));
  }

  lemma CommitKeepsAcks(c: Cluster, h: History, c': Cluster, h': History, n: NodeId)
    requires CommitInv(c, h) && Later(c, h, c', h') && h' == h.(committed := h'.committed)
    ensures forall t :: (n, t) in h'.acked ==> AckedOk(c', h', n, t)
  {
    hide CommitInv;
    forall t | (n, t) in h'.acked ensures AckedOk(c', h', n, t) {
      AckParts(c, h, n, t);
    }
  }

  lemma CommitKeeps(c: Cluster, h: History, c': Cluster, h': History, n: NodeId, s': Node, k: nat, q: set<NodeId>)
    requires Inv(c, h, true) && Commit(c, h, c', h', n, s', k, q)
    ensures CommitInv(c', h')
  {
    hide ElectionInv, LogInv, CommitInv, LeadersKeep, AckersKeep, CandidatesKeep, CommittedOk, LogOf, Later,
      AckedOk, CommitPacket, CommitOf;
    CommitLater(c, h, c', h', n, s', k, q);
    LaterKeys(c, h, c', h');
    NodeParts(c, h, n);
    Logs.LeaderLog(c, h, n);
    KeepingStays(c, h, c', h');
    CandidatesStay(c, h, c', h');
    CommitQuorum(c, h, c', h', n, s', k, q);
    CommitCommit(c, h, c', h', n, s', k, q);
    CommitKeepsAcks(c, h, c', h', n);
    Assemble(c, h, c', h', n, s', {});
  }
}
