/** The moves of the protocol. Each atomic step of a coordinator is a chain of
    moves of that coordinator; `Refinement` proves it. A move fixes only the
    fields the protocol's safety depends on. */
module Moves {
  import opened Types
  import opened Handlers
  import opened Clusters
  import opened Invariants

  predicate SameConfig(s: Node, s': Node) {
    s'.id == s.id && s'.protocol == s.protocol && s'.peers == s.peers && s'.tie == s.tie
  }

  predicate SameBallot(s: Node, s': Node) {
    s'.role == s.role && s'.term == s.term && s'.votedFor == s.votedFor && s'.votes == s.votes
  }

  /** Node n becomes s' and sends the packets ps. */
  ghost predicate Puts(c: Cluster, c': Cluster, n: NodeId, s': Node, ps: set<Packet>) {
    && n in c.nodes
    && SameConfig(c.nodes[n], s')
    && c' == Cluster(c.protocol, c.nodes[n := s'], c.msgs + ps, c'.voted)
    && c.voted <= c'.voted
  }

  /** Packets that grant, acknowledge and replicate nothing. */
  predicate Harmless(m: Packet) {
    match m.payload
    case RequestVote(_, _, _, _, _) => false
    case VoteResponse(_, granted, _, _) => !granted
    case AppendEntries(_, _, _, _, _, _) => false
    case AppendResponse(_, success, _, _, _, _) => !success
    case _ => true
  }

  /** The role, term or vote changes in a way that wins and promises nothing. */
  ghost predicate Quiet(c: Cluster, h: History, c': Cluster, h': History, n: NodeId, s': Node, ps: set<Packet>) {
    && Puts(c, c', n, s', ps) && h' == h
    && (forall m :: m in ps ==> Harmless(m))
    && var s := c.nodes[n];
    && s'.log == s.log && s'.commit == s.commit
    && s'.term >= s.term
    && (s'.term > s.term ==> s'.votedFor == None && s'.role in {Follower, Observer})
    && (s'.term == s.term ==>
          && (s'.votedFor == s.votedFor || (s'.role == Observer && s'.votedFor == None))
          && (s'.role == Candidate ==> s.role == Candidate && s'.votes == s.votes)
          && (Leads(s'.role) ==> Leads(s.role))
          && (s'.role == Leader ==> s.role == Leader && s'.matchIndex == s.matchIndex)
          && (s.role == Observer && s'.role != Observer ==> (n, s.term) !in h.cast))
  }

  /** The node starts an election in its next term. */
  ghost predicate Campaign(c: Cluster, h: History, c': Cluster, h': History, n: NodeId, s': Node, ps: set<Packet>) {
    && Puts(c, c', n, s', ps)
    && (n, s'.term) in c'.voted
    && var s := c.nodes[n];
    && s'.term == s.term + 1 && s'.role == Candidate && s'.votedFor == Some(n) && s'.votes.Keys == {n}
    && s'.log == s.log && s'.commit == s.commit
    && (forall m :: m in ps ==>
          && m.src == n && m.payload.RequestVote? && m.payload.term == s'.term && m.payload.candidate == n
          && m.payload.lastIndex == |s.log| && m.payload.lastTerm == LastTerm(s.log))
    && h' == h.(cast := h.cast[(n, s'.term) := n], stood := h.stood[(n, s'.term) := s.log])
  }

  /** The node grants its vote to the candidate of request m. */
  ghost predicate Grant(c: Cluster, h: History, c': Cluster, h': History, n: NodeId, s': Node, ps: set<Packet>,
                        m: Packet) {
    && Puts(c, c', n, s', ps)
    && (n, s'.term) in c'.voted
    && var s := c.nodes[n];
    && m in c.msgs && m.payload.RequestVote? && m.payload.term == s.term
    && s.role != Observer && (s.votedFor == None || s.votedFor == Some(m.payload.candidate))
    && UpToDate(s.log, m.payload.lastIndex, m.payload.lastTerm)
    && s'.role == s.role && s'.term == s.term && s'.votes == s.votes && s'.votedFor == Some(m.payload.candidate)
    && s'.log == s.log && s'.commit == s.commit && s'.matchIndex == s.matchIndex
    && (forall r :: r in ps ==>
          r.src == n && r.dst == To(m.src) && r.payload.VoteResponse? && r.payload.term == s.term)
    && h' == h.(cast := h.cast[(n, s.term) := m.payload.candidate])
  }

  /** A candidate counts the vote of v. */
  ghost predicate Collect(c: Cluster, h: History, c': Cluster, h': History, n: NodeId, s': Node, v: NodeId) {
    && Puts(c, c', n, s', {}) && h' == h
    && var s := c.nodes[n];
    && s.role == Candidate && VotedFor(h, v, s.term, n)
    && s'.role == s.role && s'.term == s.term && s'.votedFor == s.votedFor
    && s'.votes.Keys == s.votes.Keys + {v}
    && s'.log == s.log && s'.commit == s.commit
  }

  /** A candidate with a majority takes office. */
  ghost predicate Elect(c: Cluster, h: History, c': Cluster, h': History, n: NodeId, s': Node) {
    && Puts(c, c', n, s', {})
    && var s := c.nodes[n];
    && s.role == Candidate && Majority(|s.votes|, s)
    && s'.role == Leader && s'.term == s.term && s'.votedFor == s.votedFor
    && s'.log == s.log && s'.commit == s.commit
    && (forall p :: p in c.nodes && p != n ==> p in s'.matchIndex && s'.matchIndex[p] == 0)
    && h' == h.(elected := h.elected[s.term := Win(n, s.votes.Keys)],
                termLog := h.termLog[s.term := s.log],
                acked := h.acked[(n, s.term) := |s.log|])
  }

  /** A leader appends an entry. */
  ghost predicate Extend(c: Cluster, h: History, c': Cluster, h': History, n: NodeId, s': Node, e: LogEntry) {
    && Puts(c, c', n, s', {})
    && var s := c.nodes[n];
    && Leads(s.role) && SameBallot(s, s') && s'.commit == s.commit && s'.matchIndex == s.matchIndex
    && e.index == |s.log| + 1 && e.term == s.term && s'.log == s.log + [e]
    && h' == h.(termLog := h.termLog[s.term := s'.log], acked := h.acked[(n, s.term) := |s'.log|])
  }

  /** The packet replicates the log of leader s. */
  predicate Replicates(m: Packet, s: Node) {
    && m.src == s.id && m.payload.AppendEntries?
    && m.payload.term == s.term && m.payload.leader == s.id && m.payload.leaderCommit == s.commit
    && (Overshoot(m.payload) || (Covered(m.payload) == |s.log| && Carries(m.payload, s.log)))
  }

  /** A leader sends (parts of) its log. */
  ghost predicate Speak(c: Cluster, h: History, c': Cluster, h': History, n: NodeId, s': Node, ps: set<Packet>) {
    && Puts(c, c', n, s', ps) && h' == h
    && var s := c.nodes[n];
    && Leads(s.role) && SameBallot(s, s')
    && s'.log == s.log && s'.commit == s.commit && s'.matchIndex == s.matchIndex
    && forall m :: m in ps ==> Harmless(m) || Replicates(m, s)
  }

  /** The log after storing the entries of a packet that carries `sent`. */
  function Merge(log: Log, sent: Log): Log {
    if sent <= log then log else sent
  }

  /** The node accepts packet m of its own term. */
  ghost predicate Accept(c: Cluster, h: History, c': Cluster, h': History, n: NodeId, s': Node, ps: set<Packet>,
                         m: Packet) {
    && Puts(c, c', n, s', ps)
    && var s := c.nodes[n];
    && m in c.msgs && m.payload.AppendEntries? && m.payload.term == s.term && !Overshoot(m.payload)
    && s.role in {Follower, Observer} && SameBallot(s, s')
    && s.term in h.termLog && Covered(m.payload) <= |h.termLog[s.term]|
    && var sent := h.termLog[s.term][..Covered(m.payload)];
    && s'.log == Merge(s.log, sent)
    && s'.commit == Learn(s.(log := s'.log), m.payload.leaderCommit).commit
    && (forall r :: r in ps ==> Harmless(r) || (r.src == n && r.payload.AppendResponse?
                                              && r.payload.term == s.term && r.payload.covered == |sent|))
    && h' == h.(acked := h.acked[(n, s.term) := if Acked(h, n, s.term) >= |sent| then Acked(h, n, s.term) else |sent|])
  }

  /** A leader records the match index k of p. */
  ghost predicate Match(c: Cluster, h: History, c': Cluster, h': History, n: NodeId, s': Node, p: NodeId, k: nat,
                        safe: bool) {
    && Puts(c, c', n, s', {}) && h' == h
    && var s := c.nodes[n];
    && s.role == Leader && SameBallot(s, s')
    && s'.log == s.log && s'.commit == s.commit && s'.matchIndex == s.matchIndex[p := k]
    && (safe ==> k <= Acked(h, p, s.term))
  }

  /** A leader commits up to k, which the nodes of q have matched. */
  ghost predicate Commit(c: Cluster, h: History, c': Cluster, h': History, n: NodeId, s': Node, k: nat,
                         q: set<NodeId>) {
    && Puts(c, c', n, s', {})
    && var s := c.nodes[n];
    && s.role == Leader && SameBallot(s, s') && s'.log == s.log && s'.matchIndex == s.matchIndex
    && s'.commit == k && Has(s.log, s.term, k)
    && Quorum(c, q) && n in q
    && (forall p :: p in q && p != n ==> p in s.matchIndex && s.matchIndex[p] >= k)
    && h' == h.(committed := h.committed[(s.term, k) := q])
  }
}
