/** Each move keeps the whole invariant and only adds to the history. */
module Preservation {
  import opened Types
  import opened Handlers
  import opened Clusters
  import opened Invariants
  import opened Moves
  import Elections
  import Logs
  import Commits

  ghost predicate Kept(c: Cluster, h: History, c': Cluster, h': History, safe: bool) {
    Inv(c', h', safe) && Grows(h, h')
  }

  lemma KeptTrans(c: Cluster, h: History, c1: Cluster, h1: History, c2: Cluster, h2: History, safe: bool)
    requires Kept(c, h, c1, h1, safe) && Kept(c1, h1, c2, h2, safe)
    ensures Kept(c, h, c2, h2, safe)
  {
    hide Inv;
    GrowsTrans(h, h1, h2);
  }

  lemma GrowsTrans(h: History, h1: History, h2: History)
    requires Grows(h, h1) && Grows(h1, h2)
    ensures Grows(h, h2)
  {
    forall t | t in h.termLog ensures t in h2.termLog && TermLogGrows(t, h.termLog[t], h2.termLog[t]) {
      TermLogGrowsTrans(t, h.termLog[t], h1.termLog[t], h2.termLog[t]);
    }
  }

  lemma TermLogGrowsTrans(t: nat, a: Log, b: Log, d: Log)
    requires TermLogGrows(t, a, b) && TermLogGrows(t, b, d)
    ensures TermLogGrows(t, a, d)
  {
    forall i | |a| <= i < |d| ensures d[i].term == t {
      if i < |b| { assert d[i] == b[i]; }
    }
  }

  lemma GrowsRefl(h: History)
    ensures Grows(h, h)
  {
  }

  lemma QuietMove(c: Cluster, h: History, c': Cluster, n: NodeId, s': Node, ps: set<Packet>, safe: bool)
    requires Inv(c, h, safe) && Quiet(c, h, c', h, n, s', ps)
    ensures Kept(c, h, c', h, safe)
  {
    hide ElectionInv, LogInv, CommitInv, Quiet;
    Elections.QuietKeeps(c, h, c', h, n, s', ps);
    Logs.QuietKeeps(c, h, c', h, n, s', ps);
    if safe { Commits.QuietKeeps(c, h, c', h, n, s', ps); }
    GrowsRefl(h);
  }

  lemma CampaignMove(c: Cluster, h: History, c': Cluster, h': History, n: NodeId, s': Node, ps: set<Packet>, safe: bool)
    requires Inv(c, h, safe) && Campaign(c, h, c', h', n, s', ps)
    ensures Kept(c, h, c', h', safe)
  {
    hide ElectionInv, LogInv, CommitInv;
    Elections.CampaignKeeps(c, h, c', h', n, s', ps);
    Logs.CampaignKeeps(c, h, c', h', n, s', ps);
    if safe { Commits.CampaignKeeps(c, h, c', h', n, s', ps); }
  }

  lemma GrantMove(c: Cluster, h: History, c': Cluster, h': History, n: NodeId, s': Node, ps: set<Packet>,
                  m: Packet, safe: bool)
    requires Inv(c, h, safe) && Grant(c, h, c', h', n, s', ps, m)
    ensures Kept(c, h, c', h', safe)
  {
    hide ElectionInv, LogInv, CommitInv;
    Logs.GrantKeeps(c, h, c', h', n, s', ps, m);
    Elections.GrantKeeps(c, h, c', h', n, s', ps, m);
    if safe { Commits.GrantKeeps(c, h, c', h', n, s', ps, m); }
  }

  lemma CollectMove(c: Cluster, h: History, c': Cluster, n: NodeId, s': Node, v: NodeId, safe: bool)
    requires Inv(c, h, safe) && Collect(c, h, c', h, n, s', v)
    ensures Kept(c, h, c', h, safe)
  {
    hide ElectionInv, LogInv, CommitInv, Collect;
    Elections.CollectKeeps(c, h, c', h, n, s', v);
    Logs.CollectKeeps(c, h, c', h, n, s', v);
    if safe { Commits.CollectKeeps(c, h, c', h, n, s', v); }
    GrowsRefl(h);
  }

  lemma ElectMove(c: Cluster, h: History, c': Cluster, h': History, n: NodeId, s': Node, safe: bool)
    requires Inv(c, h, safe) && Elect(c, h, c', h', n, s')
    ensures Kept(c, h, c', h', safe)
  {
    hide ElectionInv, LogInv, CommitInv;
    Elections.ElectKeeps(c, h, c', h', n, s');
    Logs.ElectKeeps(c, h, c', h', n, s');
    if safe { Commits.ElectKeeps(c, h, c', h', n, s'); }
  }

  lemma ExtendMove(c: Cluster, h: History, c': Cluster, h': History, n: NodeId, s': Node, e: LogEntry, safe: bool)
    requires Inv(c, h, safe) && Extend(c, h, c', h', n, s', e)
    ensures Kept(c, h, c', h', safe)
  {
    hide ElectionInv, LogInv, CommitInv;
    Elections.SameBallotKeeps(c, h, c', h', n, s', {});
    Logs.ExtendKeeps(c, h, c', h', n, s', e);
    if safe { Commits.ExtendKeeps(c, h, c', h', n, s', e); }
  }

  lemma SpeakMove(c: Cluster, h: History, c': Cluster, n: NodeId, s': Node, ps: set<Packet>, safe: bool)
    requires Inv(c, h, safe) && Speak(c, h, c', h, n, s', ps)
    ensures Kept(c, h, c', h, safe)
  {
    hide ElectionInv, LogInv, CommitInv;
    Elections.SameBallotKeeps(c, h, c', h, n, s', ps);
    Logs.SpeakKeeps(c, h, c', h, n, s', ps);
    if safe { Commits.SpeakKeeps(c, h, c', h, n, s', ps); }
    GrowsRefl(h);
  }

  lemma AcceptMove(c: Cluster, h: History, c': Cluster, h': History, n: NodeId, s': Node, ps: set<Packet>,
                   m: Packet, safe: bool)
    requires Inv(c, h, safe) && Accept(c, h, c', h', n, s', ps, m)
    ensures Kept(c, h, c', h', safe)
  {
    hide ElectionInv, LogInv, CommitInv, Merge, Learn;
    Elections.SameBallotKeeps(c, h, c', h', n, s', ps);
    Logs.AcceptKeeps(c, h, c', h', n, s', ps, m);
    if safe { Commits.AcceptKeeps(c, h, c', h', n, s', ps, m); }
  }

  lemma MatchMove(c: Cluster, h: History, c': Cluster, n: NodeId, s': Node, p: NodeId, k: nat, safe: bool)
    requires Inv(c, h, safe) && Match(c, h, c', h, n, s', p, k, safe)
    ensures Kept(c, h, c', h, safe)
  {
    hide ElectionInv, LogInv, CommitInv;
    Elections.SameBallotKeeps(c, h, c', h, n, s', {});
    Logs.SameLogKeeps(c, h, c', h, n, s');
    if safe { Commits.MatchKeeps(c, h, c', h, n, s', p, k); }
    GrowsRefl(h);
  }

  lemma CommitMove(c: Cluster, h: History, c': Cluster, h': History, n: NodeId, s': Node, k: nat, q: set<NodeId>,
                   safe: bool)
    requires Inv(c, h, safe) && Commit(c, h, c', h', n, s', k, q)
    ensures Kept(c, h, c', h', safe)
  {
    hide ElectionInv, LogInv, CommitInv;
    Elections.SameBallotKeeps(c, h, c', h', n, s', {});
    Logs.SameLogKeeps(c, h, c', h', n, s');
    if safe { Commits.CommitKeeps(c, h, c', h', n, s', k, q); }
  }
}
