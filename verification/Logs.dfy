/** Every move keeps the log invariant. */
module Logs {
  import opened Types
  import opened Handlers
  import opened Clusters
  import opened Invariants
  import opened Moves
  import Elections

  lemma SoundGrows(h: History, h': History, log: Log, t: nat, t': nat)
    requires Sound(h, log, t) && t <= t'
    requires forall u :: u in h.termLog ==> u in h'.termLog && h.termLog[u] <= h'.termLog[u]
    ensures Sound(h', log, t')
  {
    forall i | 0 <= i < |log| ensures SoundAt(h', log, i) {
      assert SoundAt(h, log, i);
    }
  }

  lemma SoundPrefix(h: History, log: Log, t: nat, k: nat)
    requires Sound(h, log, t) && k <= |log|
    ensures Sound(h, log[..k], t)
  {
    forall i | 0 <= i < k ensures SoundAt(h, log[..k], i) {
      assert SoundAt(h, log, i);
      assert log[..k][..i + 1] == log[..i + 1];
    }
  }

  /** Log Matching for two sound logs. */
  lemma Matching(h: History, a: Log, b: Log, t: nat, u: nat, i: nat)
    requires Sound(h, a, t) && Sound(h, b, u)
    requires i < |a| && i < |b| && a[i].term == b[i].term
    ensures a[..i + 1] == b[..i + 1]
  {
    assert SoundAt(h, a, i) && SoundAt(h, b, i);
  }

  /** What any move must respect for the nodes that did not make it. */
  ghost predicate Frames(c: Cluster, h: History, c': Cluster, h': History, n: NodeId, s': Node, ps: set<Packet>) {
    && Puts(c, c', n, s', ps) && s'.term >= c.nodes[n].term
    && (forall t :: t in h.elected ==> t in h'.elected && h'.elected[t] == h.elected[t])
    && (forall t :: t in h.termLog ==> t in h'.termLog && TermLogGrows(t, h.termLog[t], h'.termLog[t]))
    && (forall t :: t in h.termLog && h'.termLog[t] != h.termLog[t] ==> t in h.elected && h.elected[t].leader == n)
    && (forall k :: k in h.stood ==>
        k in h'.stood && (h'.stood[k] == h.stood[k] || (k == (n, s'.term) && s'.term > c.nodes[n].term)))
  }

  lemma OtherKeepsLog(c: Cluster, h: History, c': Cluster, h': History, n: NodeId, s': Node, ps: set<Packet>, m: NodeId)
    requires Frames(c, h, c', h', n, s', ps) && m in c.nodes && m != n
    requires LogOf(c, h, m) && VotesOf(c, h, m)
    ensures LogOf(c', h', m)
  {
    SoundGrows(h, h', c.nodes[m].log, c.nodes[m].term, c.nodes[m].term);
  }

  lemma StoodKept(c: Cluster, h: History, c': Cluster, h': History, n: NodeId, s': Node, ps: set<Packet>,
                  k: (NodeId, nat))
    requires Frames(c, h, c', h', n, s', ps) && k in h.stood && StoodOk(c, h, k)
    ensures StoodOk(c', h', k) && h'.stood[k] == h.stood[k]
  {
    SoundGrows(h, h', h.stood[k], k.1, k.1);
  }

  lemma PacketKept(h: History, h': History, m: Packet)
    requires LogPacket(h, m)
    requires forall t :: t in h.elected ==> t in h'.elected && h'.elected[t] == h.elected[t]
    requires forall t :: t in h.termLog ==> t in h'.termLog && TermLogGrows(t, h.termLog[t], h'.termLog[t])
    requires m.payload.RequestVote? && (m.src, m.payload.term) in h.stood ==>
               (m.src, m.payload.term) in h'.stood
               && h'.stood[(m.src, m.payload.term)] == h.stood[(m.src, m.payload.term)]
    ensures LogPacket(h', m)
  {
    if m.payload.AppendEntries? {
      PacketGrows(h, h', m);
    }
  }

  lemma OthersKeepLogs(c: Cluster, h: History, c': Cluster, h': History, n: NodeId, s': Node, ps: set<Packet>)
    requires ElectionInv(c, h) && LogInv(c, h) && Frames(c, h, c', h', n, s', ps)
    ensures forall m :: m in c'.nodes && m != n ==> LogOf(c', h', m)
    ensures forall k :: k in h.stood ==> StoodOk(c', h', k) && h'.stood[k] == h.stood[k]
    ensures forall m :: m in c.msgs ==> LogPacket(h', m)
  {
    forall m | m in c'.nodes && m != n ensures LogOf(c', h', m) {
      OtherKeepsLog(c, h, c', h', n, s', ps, m);
    }
    forall k | k in h.stood ensures StoodOk(c', h', k) && h'.stood[k] == h.stood[k] {
      StoodKept(c, h, c', h', n, s', ps, k);
    }
    forall m | m in c.msgs ensures LogPacket(h', m) {
      PacketKept(h, h', m);
    }
  }

  lemma PacketGrows(h: History, h': History, m: Packet)
    requires m.payload.AppendEntries? && AppendPacket(h, m)
    requires forall t :: t in h.elected ==> t in h'.elected && h'.elected[t] == h.elected[t]
    requires forall t :: t in h.termLog ==> t in h'.termLog && TermLogGrows(t, h.termLog[t], h'.termLog[t])
    ensures AppendPacket(h', m)
  {
    var p := m.payload;
    if !Overshoot(p) {
      assert h'.termLog[p.term][..Covered(p)] == h.termLog[p.term][..Covered(p)];
    }
  }

  /** The invariant after a move, from what the move itself changed. */
  lemma Assemble(c: Cluster, h: History, c': Cluster, h': History, n: NodeId, s': Node, ps: set<Packet>)
    requires ElectionInv(c, h) && LogInv(c, h) && Frames(c, h, c', h', n, s', ps)
    requires LogOf(c', h', n)
    requires h'.termLog.Keys == h'.elected.Keys
    requires forall t :: t in h'.termLog && (t !in h.termLog || h'.termLog[t] != h.termLog[t]) ==>
        Sound(h', h'.termLog[t], t)
    requires forall k :: k in h'.stood && k !in h.stood ==> StoodOk(c', h', k)
    requires forall k :: k in h'.cast ==> (h'.cast[k], k.1) in h'.stood
    requires forall m :: m in ps ==> LogPacket(h', m)
    ensures LogInv(c', h')
  {
    OthersKeepLogs(c, h, c', h', n, s', ps);
    forall t | t in h'.termLog ensures Sound(h', h'.termLog[t], t) {
      if t in h.termLog && h'.termLog[t] == h.termLog[t] {
        SoundGrows(h, h', h.termLog[t], t, t);
      }
    }
  }

  /** The case of moves that change no term's log. */
  lemma SameTermLogs(c: Cluster, h: History, c': Cluster, h': History, n: NodeId, s': Node, ps: set<Packet>)
    requires ElectionInv(c, h) && LogInv(c, h) && Puts(c, c', n, s', ps) && s'.term >= c.nodes[n].term
    requires h'.termLog == h.termLog && h'.elected == h.elected && h'.stood == h.stood
    requires LogOf(c', h', n)
    requires forall k :: k in h'.cast ==> (h'.cast[k], k.1) in h.stood
    requires forall m :: m in ps ==> LogPacket(h', m)
    ensures LogInv(c', h')
  {
    hide ElectionInv, LogInv, LogOf, LogPacket, Sound, StoodOk;
    Keys(c, h);
    Assemble(c, h, c', h', n, s', ps);
  }

  lemma NodeLog(c: Cluster, h: History, n: NodeId)
    requires LogInv(c, h) && n in c.nodes
    ensures LogOf(c, h, n)
  {
  }

  lemma NodeConfig(c: Cluster, h: History, n: NodeId)
    requires ElectionInv(c, h) && n in c.nodes
    ensures ConfiguredNode(c, n)
  {
  }

  lemma SoundTermLog(c: Cluster, h: History, t: nat)
    requires LogInv(c, h) && t in h.termLog
    ensures Sound(h, h.termLog[t], t)
  {
  }

  lemma Keys(c: Cluster, h: History)
    requires LogInv(c, h)
    ensures h.termLog.Keys == h.elected.Keys
    ensures forall k :: k in h.cast ==> (h.cast[k], k.1) in h.stood
  {
  }

  /** A node's own part, when its log stays. */
  lemma OwnLog(c: Cluster, h: History, c': Cluster, h': History, n: NodeId, s': Node, ps: set<Packet>)
    requires Puts(c, c', n, s', ps) && LogOf(c, h, n)
    requires s'.log == c.nodes[n].log && s'.term >= c.nodes[n].term
    requires forall u :: u in h.termLog ==> u in h'.termLog && h.termLog[u] <= h'.termLog[u]
    requires s'.role == Candidate ==> (n, s'.term) in h'.stood && h'.stood[(n, s'.term)] == s'.log
    requires Leads(s'.role) ==> s'.term in h'.termLog && h'.termLog[s'.term] == s'.log
    ensures LogOf(c', h', n)
  {
    SoundGrows(h, h', s'.log, c.nodes[n].term, s'.term);
  }

  lemma QuietKeeps(c: Cluster, h: History, c': Cluster, h': History, n: NodeId, s': Node, ps: set<Packet>)
    requires ElectionInv(c, h) && LogInv(c, h) && Quiet(c, h, c', h', n, s', ps)
    ensures LogInv(c', h')
  {
    hide ElectionInv, LogInv, Sound;
    Keys(c, h);
    NodeLog(c, h, n);
    OwnLog(c, h, c', h', n, s', ps);
    SameTermLogs(c, h, c', h', n, s', ps);
  }

  lemma FirstCandidacy(c: Cluster, h: History, n: NodeId, t: nat)
    requires LogInv(c, h) && n in c.nodes && t > c.nodes[n].term
    ensures (n, t) !in h.stood
  {
    assert (n, t) in h.stood ==> StoodOk(c, h, (n, t));
  }

  lemma CampaignKeeps(c: Cluster, h: History, c': Cluster, h': History, n: NodeId, s': Node, ps: set<Packet>)
    requires ElectionInv(c, h) && LogInv(c, h) && Campaign(c, h, c', h', n, s', ps)
    ensures LogInv(c', h')
    ensures (n, s'.term) !in h.stood
  {
    hide ElectionInv, LogInv, Sound;
    Keys(c, h);
    FirstCandidacy(c, h, n, s'.term);
    NodeLog(c, h, n);
    OwnLog(c, h, c', h', n, s', ps);
    assert forall k :: k in h'.stood && k !in h.stood ==> k == (n, s'.term);
    assert StoodOk(c', h', (n, s'.term));
    Assemble(c, h, c', h', n, s', ps);
  }

  lemma RequestIsSound(c: Cluster, h: History, m: Packet)
    requires LogInv(c, h) && m in c.msgs && m.payload.RequestVote?
    ensures RequestPacket(h, m)
  {
    assert LogPacket(h, m);
  }

  lemma GrantKeeps(c: Cluster, h: History, c': Cluster, h': History, n: NodeId, s': Node, ps: set<Packet>, m: Packet)
    requires ElectionInv(c, h) && LogInv(c, h) && Grant(c, h, c', h', n, s', ps, m)
    ensures LogInv(c', h')
    ensures m.payload.candidate == m.src
  {
    hide ElectionInv, LogInv, Sound;
    Keys(c, h);
    RequestIsSound(c, h, m);
    NodeLog(c, h, n);
    OwnLog(c, h, c', h', n, s', ps);
    SameTermLogs(c, h, c', h', n, s', ps);
  }

  lemma CollectKeeps(c: Cluster, h: History, c': Cluster, h': History, n: NodeId, s': Node, v: NodeId)
    requires ElectionInv(c, h) && LogInv(c, h) && Collect(c, h, c', h', n, s', v)
    ensures LogInv(c', h')
  {
    hide ElectionInv, LogInv, Sound;
    Keys(c, h);
    NodeLog(c, h, n);
    OwnLog(c, h, c', h', n, s', {});
    SameTermLogs(c, h, c', h', n, s', {});
  }

  lemma ElectKeeps(c: Cluster, h: History, c': Cluster, h': History, n: NodeId, s': Node)
    requires ElectionInv(c, h) && LogInv(c, h) && Elect(c, h, c', h', n, s')
    ensures LogInv(c', h')
    ensures s'.term !in h.termLog
  {
    hide ElectionInv, LogInv, Sound;
    Keys(c, h);
    Elections.VotesAreQuorum(c, h, n);
    NodeLog(c, h, n);
    OwnLog(c, h, c', h', n, s', {});
    Assemble(c, h, c', h', n, s', {});
  }

  lemma LeaderLog(c: Cluster, h: History, n: NodeId)
    requires ElectionInv(c, h) && LogInv(c, h) && n in c.nodes && Leads(c.nodes[n].role)
    ensures LogOf(c, h, n)
    ensures c.nodes[n].term in h.termLog && h.termLog[c.nodes[n].term] == c.nodes[n].log
    ensures c.nodes[n].term in h.elected && h.elected[c.nodes[n].term].leader == n && c.nodes[n].term >= 1
  {
    assert LogOf(c, h, n) && VotesOf(c, h, n) && WinOk(c, h, c.nodes[n].term);
  }

  lemma ExtendKeeps(c: Cluster, h: History, c': Cluster, h': History, n: NodeId, s': Node, e: LogEntry)
    requires ElectionInv(c, h) && LogInv(c, h) && Extend(c, h, c', h', n, s', e)
    ensures LogInv(c', h')
    ensures s'.term in h.termLog && TermLogGrows(s'.term, h.termLog[s'.term], h'.termLog[s'.term])
  {
    hide ElectionInv, LogInv, Sound;
    Keys(c, h);
    LeaderLog(c, h, n);
    assert TermLogGrows(s'.term, h.termLog[s'.term], h'.termLog[s'.term]);
    SoundExtended(h, h', c.nodes[n].log, e, s'.term);
    assert h'.termLog.Keys == h'.elected.Keys;
    Assemble(c, h, c', h', n, s', {});
  }

  lemma SoundExtended(h: History, h': History, log: Log, e: LogEntry, t: nat)
    requires Sound(h, log, t) && e.index == |log| + 1 && e.term == t && t >= 1
    requires forall u :: u in h.termLog ==> u in h'.termLog && h.termLog[u] <= h'.termLog[u]
    requires t in h'.termLog && h'.termLog[t] == log + [e]
    ensures Sound(h', log + [e], t)
  {
    var log' := log + [e];
    SoundGrows(h, h', log, t, t);
    forall i | 0 <= i < |log'| ensures SoundAt(h', log', i) {
      if i < |log| {
        assert SoundAt(h', log, i);
        assert log'[..i + 1] == log[..i + 1];
      }
    }
  }

  lemma ReplicaPacket(h: History, m: Packet, s: Node)
    requires Replicates(m, s)
    requires s.term in h.termLog && h.termLog[s.term] == s.log
    requires s.term in h.elected && h.elected[s.term].leader == s.id
    ensures LogPacket(h, m)
  {
    assert h.termLog[s.term][..|s.log|] == s.log;
  }

  lemma SpeakKeeps(c: Cluster, h: History, c': Cluster, h': History, n: NodeId, s': Node, ps: set<Packet>)
    requires ElectionInv(c, h) && LogInv(c, h) && Speak(c, h, c', h', n, s', ps)
    ensures LogInv(c', h')
  {
    hide ElectionInv, LogInv, Sound;
    Keys(c, h);
    LeaderLog(c, h, n);
    NodeConfig(c, h, n);
    forall m | m in ps ensures LogPacket(h', m) {
      if !Harmless(m) { ReplicaPacket(h, m, c.nodes[n]); }
    }
    OwnLog(c, h, c', h', n, s', ps);
    SameTermLogs(c, h, c', h', n, s', ps);
  }

  lemma AcceptKeeps(c: Cluster, h: History, c': Cluster, h': History, n: NodeId, s': Node, ps: set<Packet>, m: Packet)
    requires ElectionInv(c, h) && LogInv(c, h) && Accept(c, h, c', h', n, s', ps, m)
    ensures LogInv(c', h')
  {
    hide ElectionInv, LogInv, Sound;
    Keys(c, h);
    NodeLog(c, h, n);
    SoundTermLog(c, h, s'.term);
    MergeIsSound(h, h', c.nodes[n].log, h.termLog[s'.term], s'.term, Covered(m.payload));
    SameTermLogs(c, h, c', h', n, s', ps);
  }

  lemma MergeIsSound(h: History, h': History, log: Log, whole: Log, t: nat, k: nat)
    requires Sound(h, log, t) && Sound(h, whole, t) && k <= |whole| && h'.termLog == h.termLog
    ensures Sound(h', Merge(log, whole[..k]), t)
  {
    SoundPrefix(h, whole, t, k);
    SoundGrows(h, h', Merge(log, whole[..k]), t, t);
  }

  lemma SameLogKeeps(c: Cluster, h: History, c': Cluster, h': History, n: NodeId, s': Node)
    requires ElectionInv(c, h) && LogInv(c, h) && Puts(c, c', n, s', {})
    requires SameBallot(c.nodes[n], s') && s'.log == c.nodes[n].log
    requires h' == h.(committed := h'.committed)
    ensures LogInv(c', h')
  {
    hide ElectionInv, LogInv, Sound;
    Keys(c, h);
    NodeLog(c, h, n);
    OwnLog(c, h, c', h', n, s', {});
    SameTermLogs(c, h, c', h', n, s', {});
  }
}
