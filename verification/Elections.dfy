/** Every move keeps the election invariant. */
module Elections {
  import opened Types
  import opened Handlers
  import opened Clusters
  import opened Invariants
  import opened Moves

  // --------------------------------------------------- parts of the invariant

  lemma NodeVotes(c: Cluster, h: History, n: NodeId)
    requires ElectionInv(c, h) && n in c.nodes
    ensures VotesOf(c, h, n) && ConfiguredNode(c, n)
  {
  }

  lemma CastParts(c: Cluster, h: History, v: NodeId, t: nat)
    requires ElectionInv(c, h) && (v, t) in h.cast
    ensures CastOk(c, h, v, t)
  {
  }

  lemma WinParts(c: Cluster, h: History, t: nat)
    requires ElectionInv(c, h) && t in h.elected
    ensures WinOk(c, h, t)
  {
  }

  lemma StillConfigured(c: Cluster, c': Cluster, n: NodeId, s': Node, ps: set<Packet>)
    requires Configured(c) && Puts(c, c', n, s', ps)
    ensures Configured(c') && c'.nodes.Keys == c.nodes.Keys && |c'.nodes| == |c.nodes|
  {
    assert c'.nodes.Keys == c.nodes.Keys;
    assert ConfiguredNode(c, n);
    forall m | m in c'.nodes ensures ConfiguredNode(c', m) {
      assert ConfiguredNode(c, m);
    }
  }

  lemma NodesStay(c: Cluster, h: History, c': Cluster, n: NodeId, s': Node, ps: set<Packet>)
    requires ElectionInv(c, h) && Puts(c, c', n, s', ps)
    ensures c'.nodes.Keys == c.nodes.Keys && |c'.nodes| == |c.nodes|
  {
    StillConfigured(c, c', n, s', ps);
  }

  // ------------------------------------------------------------ other nodes

  /** What any move must respect: n's votes only, and n's wins only. */
  ghost predicate Frames(c: Cluster, h: History, c': Cluster, h': History, n: NodeId, s': Node, ps: set<Packet>) {
    && Puts(c, c', n, s', ps) && s'.term >= c.nodes[n].term
    && (forall k :: k in h.cast ==> k in h'.cast && h'.cast[k] == h.cast[k])
    && (forall k :: k in h'.cast && k !in h.cast ==> k == (n, s'.term) && k in c'.voted)
    && (forall t :: t in h.elected ==> t in h'.elected && h'.elected[t] == h.elected[t])
    && (forall t :: t in h'.elected && t !in h.elected ==> h'.elected[t].leader == n)
  }

  lemma OtherKeepsVotes(c: Cluster, h: History, c': Cluster, h': History, n: NodeId, s': Node, ps: set<Packet>,
                        m: NodeId)
    requires Frames(c, h, c', h', n, s', ps) && m in c.nodes && m != n && VotesOf(c, h, m)
    ensures VotesOf(c', h', m)
  {
  }

  lemma CastStays(c: Cluster, h: History, c': Cluster, h': History, n: NodeId, s': Node, ps: set<Packet>,
                  v: NodeId, t: nat)
    requires Frames(c, h, c', h', n, s', ps) && (v, t) in h'.cast
    requires (v, t) in h.cast ==> CastOk(c, h, v, t)
    ensures CastOk(c', h', v, t)
  {
  }

  lemma WinStays(c: Cluster, h: History, c': Cluster, h': History, n: NodeId, s': Node, ps: set<Packet>, t: nat)
    requires Frames(c, h, c', h', n, s', ps) && c'.nodes.Keys == c.nodes.Keys && |c'.nodes| == |c.nodes|
    requires t in h.elected && WinOk(c, h, t)
    ensures WinOk(c', h', t)
  {
  }

  lemma VotePacketStays(h: History, h': History, m: Packet)
    requires VotePacket(h, m)
    requires forall k :: k in h.cast ==> k in h'.cast && h'.cast[k] == h.cast[k]
    ensures VotePacket(h', m)
  {
  }

  /** The invariant after a move, from what the move itself changed. */
  lemma Assemble(c: Cluster, h: History, c': Cluster, h': History, n: NodeId, s': Node, ps: set<Packet>)
    requires ElectionInv(c, h) && Frames(c, h, c', h', n, s', ps)
    requires VotesOf(c', h', n)
    requires forall t :: t in h'.elected && t !in h.elected ==> WinOk(c', h', t)
    requires forall m :: m in ps ==> VotePacket(h', m)
    ensures ElectionInv(c', h')
  {
    hide VotesOf, CastOk, WinOk, VotePacket, Configured;
    StillConfigured(c, c', n, s', ps);
    forall m | m in c'.nodes ensures VotesOf(c', h', m) {
      if m != n {
        NodeVotes(c, h, m);
        OtherKeepsVotes(c, h, c', h', n, s', ps, m);
      }
    }
    forall v, t | (v, t) in h'.cast ensures CastOk(c', h', v, t) {
      CastStays(c, h, c', h', n, s', ps, v, t);
    }
    forall t | t in h'.elected ensures WinOk(c', h', t) {
      if t in h.elected { WinStays(c, h, c', h', n, s', ps, t); }
    }
    forall m | m in c'.msgs ensures VotePacket(h', m) {
      if m !in ps { VotePacketStays(h, h', m); }
    }
  }

  // ------------------------------------------------------------------ moves

  lemma QuietVotes(c: Cluster, h: History, c': Cluster, n: NodeId, s': Node)
    requires n in c.nodes && n in c'.nodes && c'.nodes[n] == s' && c'.nodes.Keys == c.nodes.Keys
    requires VotesOf(c, h, n) && ((n, s'.term) in h.cast ==> CastOk(c, h, n, s'.term))
    requires s'.term >= c.nodes[n].term
    requires s'.term > c.nodes[n].term ==> s'.votedFor == None && s'.role in {Follower, Observer}
    requires s'.term == c.nodes[n].term ==>
          && (s'.votedFor == c.nodes[n].votedFor || (s'.role == Observer && s'.votedFor == None))
          && (s'.role == Candidate ==> c.nodes[n].role == Candidate && s'.votes == c.nodes[n].votes)
          && (Leads(s'.role) ==> Leads(c.nodes[n].role))
          && (c.nodes[n].role == Observer && s'.role != Observer ==> (n, s'.term) !in h.cast)
    ensures VotesOf(c', h, n)
  {
  }

  lemma QuietKeeps(c: Cluster, h: History, c': Cluster, h': History, n: NodeId, s': Node, ps: set<Packet>)
    requires ElectionInv(c, h) && Quiet(c, h, c', h', n, s', ps)
    ensures ElectionInv(c', h')
  {
    hide ElectionInv, VotesOf, WinOk;
    NodeVotes(c, h, n);
    NodesStay(c, h, c', n, s', ps);
    if (n, s'.term) in h.cast { CastParts(c, h, n, s'.term); }
    QuietVotes(c, h, c', n, s');
    Assemble(c, h, c', h', n, s', ps);
  }

  lemma CampaignKeeps(c: Cluster, h: History, c': Cluster, h': History, n: NodeId, s': Node, ps: set<Packet>)
    requires ElectionInv(c, h) && Campaign(c, h, c', h', n, s', ps)
    ensures ElectionInv(c', h')
    ensures (n, s'.term) !in h.cast
  {
    hide ElectionInv, WinOk;
    if (n, s'.term) in h.cast { CastParts(c, h, n, s'.term); }
    NotYetWon(c, h, n, s'.term);
    assert VotedFor(h', n, s'.term, n);
    assert VotesOf(c', h', n);
    Assemble(c, h, c', h', n, s', ps);
  }

  lemma NotYetWon(c: Cluster, h: History, n: NodeId, t: nat)
    requires ElectionInv(c, h) && n in c.nodes && t > c.nodes[n].term
    ensures !(t in h.elected && h.elected[t].leader == n)
  {
    assert t in h.elected ==> WinOk(c, h, t);
  }

  /** A node that may grant its vote has not given it to someone else. */
  lemma VoteIsFree(c: Cluster, h: History, n: NodeId, candidate: NodeId)
    requires ElectionInv(c, h) && n in c.nodes && c.nodes[n].role != Observer
    requires c.nodes[n].votedFor == None || c.nodes[n].votedFor == Some(candidate)
    ensures (n, c.nodes[n].term) in h.cast ==> VotedFor(h, n, c.nodes[n].term, candidate)
  {
    assert VotesOf(c, h, n);
  }

  lemma GrantKeeps(c: Cluster, h: History, c': Cluster, h': History, n: NodeId, s': Node, ps: set<Packet>, m: Packet)
    requires ElectionInv(c, h) && Grant(c, h, c', h', n, s', ps, m) && m.payload.candidate == m.src
    ensures ElectionInv(c', h')
  {
    hide ElectionInv, WinOk, UpToDate;
    VoteIsFree(c, h, n, m.payload.candidate);
    NodeVotes(c, h, n);
    NodesStay(c, h, c', n, s', ps);
    assert VotedFor(h', n, s'.term, m.src);
    assert VotesOf(c', h', n);
    Assemble(c, h, c', h', n, s', ps);
  }

  lemma CollectVotes(c: Cluster, h: History, c': Cluster, n: NodeId, s': Node, v: NodeId)
    requires Collect(c, h, c', h, n, s', v) && VotesOf(c, h, n) && v in c.nodes
    ensures VotesOf(c', h, n)
  {
    forall w | w in s'.votes ensures w in c'.nodes && VotedFor(h, w, s'.term, n) {
      assert w in c.nodes[n].votes.Keys + {v};
    }
  }

  lemma CollectKeeps(c: Cluster, h: History, c': Cluster, h': History, n: NodeId, s': Node, v: NodeId)
    requires ElectionInv(c, h) && Collect(c, h, c', h', n, s', v)
    ensures ElectionInv(c', h')
  {
    hide ElectionInv, WinOk, VotesOf;
    NodeVotes(c, h, n);
    CastParts(c, h, v, s'.term);
    CollectVotes(c, h, c', n, s', v);
    Assemble(c, h, c', h', n, s', {});
  }

  /** A candidate's votes are a quorum, so nobody won its term before. */
  lemma VotesAreQuorum(c: Cluster, h: History, n: NodeId)
    requires ElectionInv(c, h) && n in c.nodes
    requires c.nodes[n].role == Candidate && Majority(|c.nodes[n].votes|, c.nodes[n])
    ensures Quorum(c, c.nodes[n].votes.Keys)
    ensures c.nodes[n].term !in h.elected
  {
    hide ElectionInv;
    var s := c.nodes[n];
    NodeVotes(c, h, n);
    assert |s.votes.Keys| == |s.votes|;
    assert Quorum(c, s.votes.Keys);
    if s.term in h.elected {
      WinParts(c, h, s.term);
      var v := Overlap(c, h.elected[s.term].voters, s.votes.Keys);
      assert false;
    }
  }

  lemma ElectKeeps(c: Cluster, h: History, c': Cluster, h': History, n: NodeId, s': Node)
    requires ElectionInv(c, h) && Elect(c, h, c', h', n, s')
    ensures ElectionInv(c', h')
    ensures s'.term !in h.elected
  {
    hide ElectionInv, Quorum;
    VotesAreQuorum(c, h, n);
    NodesStay(c, h, c', n, s', {});
    SameQuorum(c, c', c.nodes[n].votes.Keys);
    NodeVotes(c, h, n);
    assert WinOk(c', h', s'.term);
    assert VotesOf(c', h', n);
    Assemble(c, h, c', h', n, s', {});
  }

  lemma SameQuorum(c: Cluster, c': Cluster, q: set<NodeId>)
    requires Quorum(c, q) && c'.nodes.Keys == c.nodes.Keys && |c'.nodes| == |c.nodes|
    ensures Quorum(c', q)
  {
  }

  /** Moves of a leader, and of a node that accepts, touch no vote. */
  lemma SameBallotKeeps(c: Cluster, h: History, c': Cluster, h': History, n: NodeId, s': Node, ps: set<Packet>)
    requires ElectionInv(c, h) && Puts(c, c', n, s', ps) && SameBallot(c.nodes[n], s')
    requires h'.cast == h.cast && h'.elected == h.elected
    requires forall m :: m in ps ==> !(m.payload.VoteResponse? && m.payload.granted)
    ensures ElectionInv(c', h')
  {
    hide ElectionInv, WinOk, VotesOf;
    NodeVotes(c, h, n);
    NodesStay(c, h, c', n, s', ps);
    SameVotes(c, h, c', h', n, s');
    Assemble(c, h, c', h', n, s', ps);
  }

  lemma SameVotes(c: Cluster, h: History, c': Cluster, h': History, n: NodeId, s': Node)
    requires n in c.nodes && VotesOf(c, h, n) && SameBallot(c.nodes[n], s')
    requires n in c'.nodes && c'.nodes[n] == s' && c'.nodes.Keys == c.nodes.Keys
    requires h'.cast == h.cast && h'.elected == h.elected
    ensures VotesOf(c', h', n)
  {
  }
}
