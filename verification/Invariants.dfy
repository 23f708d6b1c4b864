/** The inductive invariants of the protocol. They speak about a cluster and a
    history of it: votes cast, elections won, the log of each term's leader,
    and the entries each node acknowledged in each term. */
module Invariants {
  import opened Types
  import opened Handlers
  import opened Clusters

  /** The winner of a term and the nodes that voted for it. */
  datatype Win = Win(leader: NodeId, voters: set<NodeId>)

  /** - cast: for whom a node voted in a term
      - elected: who won a term
      - termLog: the log of a term's leader, up to its last entry of that term
      - stood: the log a candidate stood with in a term
      - acked: how much of a term's log a node has held while in that term
      - committed: (t, n) maps to nodes that acknowledged entry n in term t,
        when term t's leader committed up to n */
  datatype History = History(
    cast: map<(NodeId, nat), NodeId>,
    elected: map<nat, Win>,
    termLog: map<nat, Log>,
    stood: map<(NodeId, nat), Log>,
    acked: map<(NodeId, nat), nat>,
    committed: map<(nat, nat), set<NodeId>>)

  // ---------------------------------------------------------------- quorums

  ghost predicate Quorum(c: Cluster, q: set<NodeId>) {
    q <= c.nodes.Keys && 2 * |q| > |c.nodes|
  }

  lemma Overlap(c: Cluster, p: set<NodeId>, q: set<NodeId>) returns (v: NodeId)
    requires Quorum(c, p) && Quorum(c, q)
    ensures v in p && v in q
  {
    if p * q == {} {
      assert |p + q| == |p| + |q|;
      Within(p + q, c.nodes.Keys);
      assert false;
    }
    v :| v in p * q;
  }

  lemma {:induction false} Within<T>(a: set<T>, b: set<T>)
    requires a <= b
    ensures |a| <= |b|
  {
    assert b == a + (b - a);
  }

  // --------------------------------------------------------------- elections

  predicate VotedFor(h: History, v: NodeId, t: nat, n: NodeId) {
    (v, t) in h.cast && h.cast[(v, t)] == n
  }

  /** A node remembers the vote it cast in its current term, unless it is an
      OBSERVER, and a candidate's votes were cast for it. */
  ghost predicate VotesOf(c: Cluster, h: History, n: NodeId)
    requires n in c.nodes
  {
    var s := c.nodes[n];
    && (s.votedFor.Some? ==> VotedFor(h, n, s.term, s.votedFor.value))
    && (s.role != Observer && (n, s.term) in h.cast ==> s.votedFor == Some(h.cast[(n, s.term)]))
    && (s.role == Candidate ==> forall v :: v in s.votes ==> v in c.nodes && VotedFor(h, v, s.term, n))
    && (s.role == Candidate ==> s.term >= 1 && !(s.term in h.elected && h.elected[s.term].leader == n))
    && (Leads(s.role) ==> s.term in h.elected && h.elected[s.term].leader == n)
  }

  ghost predicate CastOk(c: Cluster, h: History, v: NodeId, t: nat) {
    v in c.nodes && t <= c.nodes[v].term && (v, t) in c.voted
  }

  ghost predicate WinOk(c: Cluster, h: History, t: nat)
    requires t in h.elected
  {
    var w := h.elected[t];
    && t >= 1
    && Quorum(c, w.voters)
    && (forall v :: v in w.voters ==> VotedFor(h, v, t, w.leader))
    && w.leader in c.nodes && t <= c.nodes[w.leader].term
  }

  ghost predicate VotePacket(h: History, m: Packet) {
    m.payload.VoteResponse? && m.payload.granted ==> m.dst.To? && VotedFor(h, m.src, m.payload.term, m.dst.id)
  }

  ghost predicate ElectionInv(c: Cluster, h: History) {
    && Configured(c)
    && (forall n :: n in c.nodes ==> VotesOf(c, h, n))
    && (forall v, t :: (v, t) in h.cast ==> CastOk(c, h, v, t))
    && (forall t :: t in h.elected ==> WinOk(c, h, t))
    && (forall m :: m in c.msgs ==> VotePacket(h, m))
  }

  // -------------------------------------------------------------------- logs

  /** Entry i sits at its index, and up to it the log is a prefix of the log of
      the leader that created the entry. */
  ghost predicate SoundAt(h: History, log: Log, i: nat)
    requires i < |log|
  {
    && log[i].index == i + 1
    && log[i].term in h.termLog
    && log[..i + 1] <= h.termLog[log[i].term]
  }

  ghost predicate Ordered(log: Log) {
    forall i, j :: 0 <= i <= j < |log| ==> log[i].term <= log[j].term
  }

  ghost predicate Bounded(log: Log, t: nat) {
    forall i :: 0 <= i < |log| ==> 1 <= log[i].term <= t
  }

  ghost predicate Sound(h: History, log: Log, t: nat) {
    && (forall i :: 0 <= i < |log| ==> SoundAt(h, log, i))
    && Ordered(log) && Bounded(log, t)
  }

  ghost predicate LogOf(c: Cluster, h: History, n: NodeId)
    requires n in c.nodes
  {
    var s := c.nodes[n];
    && Sound(h, s.log, s.term)
    && (s.role == Candidate ==> (n, s.term) in h.stood && h.stood[(n, s.term)] == s.log)
    && (Leads(s.role) ==> s.term in h.termLog && h.termLog[s.term] == s.log)
  }

  function Covered(p: Payload): nat
    requires p.AppendEntries?
  {
    p.prevIndex + |p.entries|
  }

  /** The leader's `next_index` was past its own log; every receiver rejects. */
  predicate Overshoot(p: Payload)
    requires p.AppendEntries?
  {
    p.prevIndex > 0 && p.prevTerm == 0 && p.entries == []
  }

  function TermAt(log: Log, i: nat): nat {
    if 0 < i <= |log| then log[i - 1].term else 0
  }

  /** The packet carries a whole suffix of `log`. */
  predicate Carries(p: Payload, log: Log)
    requires p.AppendEntries?
  {
    p.prevIndex <= |log| && p.entries == log[p.prevIndex..] && p.prevTerm == TermAt(log, p.prevIndex)
  }

  /** What a leader of term `p.term` with log `termLog[p.term]` may have sent. */
  ghost predicate AppendPacket(h: History, m: Packet)
    requires m.payload.AppendEntries?
  {
    var p := m.payload;
    && p.term in h.elected && h.elected[p.term].leader == p.leader == m.src
    && (Overshoot(p)
        || (&& p.term in h.termLog
            && Covered(p) <= |h.termLog[p.term]|
            && Carries(p, h.termLog[p.term][..Covered(p)])
            && forall i :: Covered(p) <= i < |h.termLog[p.term]| ==> h.termLog[p.term][i].term == p.term))
  }

  ghost predicate RequestPacket(h: History, m: Packet)
    requires m.payload.RequestVote?
  {
    var p := m.payload;
    && p.candidate == m.src
    && (m.src, p.term) in h.stood
    && p.lastIndex == |h.stood[(m.src, p.term)]|
    && p.lastTerm == LastTerm(h.stood[(m.src, p.term)])
  }

  ghost predicate LogPacket(h: History, m: Packet) {
    && (m.payload.AppendEntries? ==> AppendPacket(h, m))
    && (m.payload.RequestVote? ==> RequestPacket(h, m))
  }

  ghost predicate StoodOk(c: Cluster, h: History, k: (NodeId, nat))
    requires k in h.stood
  {
    k.0 in c.nodes && k.1 <= c.nodes[k.0].term && Sound(h, h.stood[k], k.1)
  }

  ghost predicate LogInv(c: Cluster, h: History) {
    && (forall n :: n in c.nodes ==> LogOf(c, h, n))
    && h.termLog.Keys == h.elected.Keys
    && (forall t :: t in h.termLog ==> Sound(h, h.termLog[t], t))
    && (forall k :: k in h.stood ==> StoodOk(c, h, k))
    && (forall k :: k in h.cast ==> (h.cast[k], k.1) in h.stood)
    && (forall m :: m in c.msgs ==> LogPacket(h, m))
  }

  // ------------------------------------------------------------------ commit

  function Acked(h: History, v: NodeId, t: nat): nat {
    if (v, t) in h.acked then h.acked[(v, t)] else 0
  }

  /** The log holds an entry of term t at position n. */
  predicate Has(log: Log, t: nat, n: nat) {
    1 <= n <= |log| && log[n - 1].term == t
  }

  ghost predicate Abstains(c: Cluster, h: History, q: set<NodeId>, t: nat, n: nat) {
    Quorum(c, q) && forall v :: v in q ==> c.nodes[v].term > t && Acked(h, v, t) < n
  }

  /** Term t can no longer commit its entry n: a quorum has left the term
      without acknowledging it. */
  ghost predicate Dead(c: Cluster, h: History, t: nat, n: nat) {
    exists q :: Abstains(c, h, q, t, n)
  }

  ghost predicate Survives(c: Cluster, h: History, log: Log, t: nat, n: nat) {
    Has(log, t, n) || Dead(c, h, t, n)
  }

  /** Term t's leader created an entry at n. */
  ghost predicate Created(h: History, t: nat, n: nat) {
    t in h.termLog && Has(h.termLog[t], t, n)
  }

  ghost predicate LeadersKeep(c: Cluster, h: History) {
    forall t: nat, u: nat, n: nat :: Created(h, t, n) && u in h.termLog && t < u ==> Survives(c, h, h.termLog[u], t, n)
  }

  ghost predicate AckersKeep(c: Cluster, h: History) {
    forall v: NodeId, t: nat, n: nat :: v in c.nodes && Created(h, t, n) && n <= Acked(h, v, t) ==>
        Survives(c, h, c.nodes[v].log, t, n)
  }

  ghost predicate CandidatesKeep(c: Cluster, h: History) {
    forall v: NodeId, u: nat, t: nat, n: nat ::
      (v, u) in h.cast && (h.cast[(v, u)], u) in h.stood && Created(h, t, n) && t < u && n <= Acked(h, v, t)
      ==> Survives(c, h, h.stood[(h.cast[(v, u)], u)], t, n)
  }

  ghost predicate AckedOk(c: Cluster, h: History, v: NodeId, t: nat) {
    v in c.nodes && t <= c.nodes[v].term && t in h.termLog && Acked(h, v, t) <= |h.termLog[t]|
  }

  ghost predicate CommittedOk(c: Cluster, h: History, k: (nat, nat))
    requires k in h.committed
  {
    && Created(h, k.0, k.1)
    && Quorum(c, h.committed[k])
    && forall v :: v in h.committed[k] ==> Acked(h, v, k.0) >= k.1
  }

  /** Position `commit` of `log` is covered by the commit k. */
  ghost predicate CoveredBy(h: History, log: Log, commit: nat, term: nat, k: (nat, nat)) {
    && k in h.committed && k.0 in h.termLog
    && k.0 <= term && commit <= k.1 && commit <= |log|
    && log[..commit] <= h.termLog[k.0]
  }

  ghost predicate CommitOk(h: History, log: Log, commit: nat, term: nat) {
    commit == 0 || exists k :: CoveredBy(h, log, commit, term, k)
  }

  ghost predicate CommitOf(c: Cluster, h: History, n: NodeId)
    requires n in c.nodes
  {
    var s := c.nodes[n];
    && CommitOk(h, s.log, s.commit, s.term)
    && (Leads(s.role) ==> Acked(h, n, s.term) == |s.log|)
    && (s.role == Leader ==> forall p :: p in s.matchIndex && p in c.nodes && p != n ==>
        s.matchIndex[p] <= Acked(h, p, s.term))
  }

  ghost predicate CommitPacket(h: History, m: Packet) {
    && (m.payload.AppendEntries? && m.payload.term in h.termLog && !Overshoot(m.payload) ==>
          Covered(m.payload) <= |h.termLog[m.payload.term]|
          && CommitOk(h, h.termLog[m.payload.term][..Covered(m.payload)], m.payload.leaderCommit, m.payload.term))
    && (m.payload.AppendResponse? && m.payload.success ==> m.payload.covered <= Acked(h, m.src, m.payload.term))
  }

  ghost predicate CommitInv(c: Cluster, h: History) {
    && LeadersKeep(c, h) && AckersKeep(c, h) && CandidatesKeep(c, h)
    && (forall v, t :: (v, t) in h.acked ==> AckedOk(c, h, v, t))
    && (forall k :: k in h.committed ==> CommittedOk(c, h, k))
    && (forall n :: n in c.nodes ==> CommitOf(c, h, n))
    && (forall m :: m in c.msgs ==> CommitPacket(h, m))
  }

  /** With `safe` false, only elections and logs. */
  ghost predicate Inv(c: Cluster, h: History, safe: bool) {
    ElectionInv(c, h) && LogInv(c, h) && (safe ==> CommitInv(c, h))
  }

  /** Histories only grow, and a term's log only by entries of that term. */
  ghost predicate Grows(h: History, h': History) {
    && (forall t :: t in h.elected ==> t in h'.elected && h'.elected[t] == h.elected[t])
    && (forall t :: t in h.termLog ==> t in h'.termLog && TermLogGrows(t, h.termLog[t], h'.termLog[t]))
    && (forall k :: k in h.committed ==> k in h'.committed)
  }

  ghost predicate TermLogGrows(t: nat, log: Log, log': Log) {
    log <= log' && forall i :: |log| <= i < |log'| ==> log'[i].term == t
  }
}
