/** The safety properties of the Raft paper, over whole runs of the cluster:
    any number of coordinators, any interleaving, and any loss, duplication or
    reordering of packets. */
module Safety {
  import opened Types
  import opened Clusters
  import opened Invariants
  import opened Preservation
  import Logs
  import Commits
  import Refinement

  // ------------------------------------------------------------ whole runs

  ghost predicate Chronicle(run: seq<Cluster>, hs: seq<History>, safe: bool) {
    && |hs| == |run|
    && (forall i :: 0 <= i < |run| ==> Inv(run[i], hs[i], safe))
    && (forall i, j :: 0 <= i <= j < |run| ==> Grows(hs[i], hs[j]))
  }

  /** Every admissible run has a history for which the invariant holds throughout. */
  lemma {:induction false} Chronicled(run: seq<Cluster>, acts: seq<Action>, safe: bool) returns (hs: seq<History>)
    requires AdmissibleRun(run, acts, safe)
    ensures Chronicle(run, hs, safe)
    decreases |acts|
  {
    hide Inv, Grows, Apply, Admissible;
    if acts == [] {
      Refinement.InitHolds(run[0], safe);
      hs := [Refinement.NoHistory];
      GrowsRefl(hs[0]);
    } else {
      var last := |acts| - 1;
      PrefixRun(run, acts, safe);
      var earlier := Chronicled(run[..last + 1], acts[..last], safe);
      assert run[..last + 1][last] == run[last];
      var h := Refinement.StepKeeps(run[last], earlier[last], acts[last], safe);
      KeptParts(run[last], earlier[last], run[last + 1], h, safe);
      hs := earlier + [h];
      forall i, j | 0 <= i <= j < |run| ensures Grows(hs[i], hs[j]) {
        if i == j { GrowsRefl(hs[i]); }
        else if j == last + 1 {
          GrowsTrans(hs[i], hs[last], h);
        }
      }
      forall i | 0 <= i < |run| ensures Inv(run[i], hs[i], safe) {
        if i <= last { assert run[..last + 1][i] == run[i]; }
      }
    }
  }

  lemma PrefixRun(run: seq<Cluster>, acts: seq<Action>, safe: bool)
    requires AdmissibleRun(run, acts, safe) && acts != []
    ensures AdmissibleRun(run[..|acts|], acts[..|acts| - 1], safe)
    ensures Enabled(run[|acts| - 1], acts[|acts| - 1]) && Admissible(run[|acts| - 1], acts[|acts| - 1], safe)
    ensures run[|acts|] == Apply(run[|acts| - 1], acts[|acts| - 1])
  {
    hide Init, Apply, Enabled, Admissible;
    var last := |acts| - 1;
    forall i | 0 <= i < last
      ensures Enabled(run[..last + 1][i], acts[..last][i]) && Admissible(run[..last + 1][i], acts[..last][i], safe)
        && run[..last + 1][i + 1] == Apply(run[..last + 1][i], acts[..last][i])
    {
      assert Enabled(run[i], acts[i]);
    }
  }

  lemma KeptParts(c: Cluster, h: History, c': Cluster, h': History, safe: bool)
    requires Kept(c, h, c', h', safe)
    ensures Inv(c', h', safe) && Grows(h, h')
  {
  }

  /** A run that restricts re-entries and acks restricts re-entries. */
  lemma SafeIsAdmissible(run: seq<Cluster>, acts: seq<Action>)
    requires AdmissibleRun(run, acts, true)
    ensures AdmissibleRun(run, acts, false)
  {
    hide Init, Apply;
  }

  /** In `raft` mode the battery gate is off, so every run qualifies. */
  lemma {:induction false} RaftRunsQualify(run: seq<Cluster>, acts: seq<Action>)
    requires IsRun(run, acts) && run[0].protocol == Raft
    ensures AdmissibleRun(run, acts, false) && run[|acts|].protocol == Raft
    decreases |acts|
  {
    hide Init, Enabled, Fire, FaithfulAck;
    if acts != [] {
      var last := |acts| - 1;
      PrefixIsRun(run, acts);
      RaftRunsQualify(run[..last + 1], acts[..last]);
      var hs := Chronicled(run[..last + 1], acts[..last], false);
      assert Inv(run[last], hs[last], false);
      RaftStepQualifies(run[last], hs[last], acts[last]);
      forall i | 0 <= i < |acts| ensures Admissible(run[i], acts[i], false) {
        if i < last {
          assert acts[..last][i] == acts[i] && run[..last + 1][i] == run[i];
        }
      }
    }
  }

  lemma RaftStepQualifies(c: Cluster, h: History, a: Action)
    requires Inv(c, h, false) && c.protocol == Raft && Enabled(c, a)
    ensures Admissible(c, a, false)
  {
    hide LogInv, CommitInv;
    assert ConfiguredNode(c, a.node);
  }

  lemma PrefixIsRun(run: seq<Cluster>, acts: seq<Action>)
    requires IsRun(run, acts) && acts != []
    ensures IsRun(run[..|acts|], acts[..|acts| - 1])
    ensures Enabled(run[|acts| - 1], acts[|acts| - 1]) && run[|acts|] == Apply(run[|acts| - 1], acts[|acts| - 1])
  {
    hide Init, Apply, Enabled;
    var last := |acts| - 1;
    forall i | 0 <= i < last
      ensures Enabled(run[..last + 1][i], acts[..last][i])
        && run[..last + 1][i + 1] == Apply(run[..last + 1][i], acts[..last][i])
    {
      assert Enabled(run[i], acts[i]);
    }
  }

  // -------------------------------------------------------- election safety

  /** The winner on record for a leader's term, in any later history. */
  lemma LeaderOnRecord(c: Cluster, h: History, h': History, n: NodeId, safe: bool)
    requires Inv(c, h, safe) && Grows(h, h') && n in c.nodes && Leads(c.nodes[n].role)
    ensures c.nodes[n].term in h'.elected && h'.elected[c.nodes[n].term].leader == n
  {
    hide LogInv, CommitInv;
    assert VotesOf(c, h, n);
  }

  /** Election Safety (section 5.2), over a whole run: at most one node ever
      leads a term. */
  lemma ElectionSafety(run: seq<Cluster>, acts: seq<Action>, i: nat, j: nat, a: NodeId, b: NodeId)
    requires AdmissibleRun(run, acts, false) && i < |run| && j < |run|
    requires a in run[i].nodes && Leads(run[i].nodes[a].role)
    requires b in run[j].nodes && Leads(run[j].nodes[b].role)
    requires run[i].nodes[a].term == run[j].nodes[b].term
    ensures a == b
  {
    hide Inv, Grows, AdmissibleRun;
    var hs := Chronicled(run, acts, false);
    var m := |run| - 1;
    LeaderOnRecord(run[i], hs[i], hs[m], a, false);
    LeaderOnRecord(run[j], hs[j], hs[m], b, false);
  }

  lemma ElectionSafetyInRaftMode(run: seq<Cluster>, acts: seq<Action>, i: nat, j: nat, a: NodeId, b: NodeId)
    requires IsRun(run, acts) && run[0].protocol == Raft && i < |run| && j < |run|
    requires a in run[i].nodes && Leads(run[i].nodes[a].role)
    requires b in run[j].nodes && Leads(run[j].nodes[b].role)
    requires run[i].nodes[a].term == run[j].nodes[b].term
    ensures a == b
  {
    RaftRunsQualify(run, acts);
    ElectionSafety(run, acts, i, j, a, b);
  }

  // ----------------------------------------------------------- log matching

  /** A node's log is sound for any later history. */
  lemma LogOnRecord(c: Cluster, h: History, h': History, n: NodeId, safe: bool)
    requires Inv(c, h, safe) && Grows(h, h') && n in c.nodes
    ensures Sound(h', c.nodes[n].log, c.nodes[n].term)
  {
    hide ElectionInv, CommitInv, Sound;
    assert LogOf(c, h, n);
    Logs.SoundGrows(h, h', c.nodes[n].log, c.nodes[n].term, c.nodes[n].term);
  }

  /** Log Matching (section 5.3), across nodes and across time: if two logs hold
      an entry with the same index and term, they are identical up to it. */
  lemma LogMatching(run: seq<Cluster>, acts: seq<Action>, i: nat, j: nat, a: NodeId, b: NodeId, k: nat)
    requires AdmissibleRun(run, acts, false) && i < |run| && j < |run|
    requires a in run[i].nodes && b in run[j].nodes
    requires k < |run[i].nodes[a].log| && k < |run[j].nodes[b].log|
    requires run[i].nodes[a].log[k].term == run[j].nodes[b].log[k].term
    ensures run[i].nodes[a].log[..k + 1] == run[j].nodes[b].log[..k + 1]
  {
    hide Inv, Grows, AdmissibleRun, Sound;
    var hs := Chronicled(run, acts, false);
    var m := |run| - 1;
    LogOnRecord(run[i], hs[i], hs[m], a, false);
    LogOnRecord(run[j], hs[j], hs[m], b, false);
    Logs.Matching(hs[m], run[i].nodes[a].log, run[j].nodes[b].log, run[i].nodes[a].term, run[j].nodes[b].term, k);
  }

  lemma LogMatchingInRaftMode(run: seq<Cluster>, acts: seq<Action>, i: nat, j: nat, a: NodeId, b: NodeId, k: nat)
    requires IsRun(run, acts) && run[0].protocol == Raft && i < |run| && j < |run|
    requires a in run[i].nodes && b in run[j].nodes
    requires k < |run[i].nodes[a].log| && k < |run[j].nodes[b].log|
    requires run[i].nodes[a].log[k].term == run[j].nodes[b].log[k].term
    ensures run[i].nodes[a].log[..k + 1] == run[j].nodes[b].log[..k + 1]
  {
    RaftRunsQualify(run, acts);
    LogMatching(run, acts, i, j, a, b, k);
  }

  // ------------------------------------------------------------ commit safety

  /** A node's committed prefix, as a later history records it: a prefix of the
      log of the leader that committed it. */
  lemma CommitOnRecord(c: Cluster, h: History, h': History, n: NodeId) returns (k: (nat, nat))
    requires Inv(c, h, true) && Grows(h, h') && n in c.nodes && c.nodes[n].commit > 0
    ensures CoveredBy(h', c.nodes[n].log, c.nodes[n].commit, c.nodes[n].term, k)
  {
    hide ElectionInv, LogInv;
    assert CommitOf(c, h, n);
    k :| CoveredBy(h, c.nodes[n].log, c.nodes[n].commit, c.nodes[n].term, k);
  }

  /** Every later term's log starts with what was committed. */
  lemma LaterTermLog(c: Cluster, h: History, k: (nat, nat), u: nat)
    requires Inv(c, h, true) && k in h.committed && u in h.termLog && k.0 <= u
    ensures k.0 in h.termLog && k.1 <= |h.termLog[k.0]| && k.1 <= |h.termLog[u]|
    ensures h.termLog[u][..k.1] == h.termLog[k.0][..k.1]
    ensures Has(h.termLog[u], k.0, k.1)
  {
    hide ElectionInv, LogInv, CommitInv, Dead;
    Commits.CommittedParts(c, h, k);
    if k.0 < u {
      Commits.LeaderParts(c, h, k.0, u, k.1);
      Commits.CommittedLives(c, h, k);
      Commits.TermLogPrefix(c, h, u, k.1);
    }
  }

  /** Leader Completeness (section 5.4.3): what a node holds as committed is in
      the log of every leader of a later term, whenever that leader leads. */
  lemma LeaderCompleteness(run: seq<Cluster>, acts: seq<Action>, i: nat, j: nat, a: NodeId, b: NodeId)
    requires AdmissibleRun(run, acts, true) && i < |run| && j < |run|
    requires a in run[i].nodes && b in run[j].nodes && Leads(run[j].nodes[b].role)
    requires run[j].nodes[b].term > run[i].nodes[a].term
    ensures run[i].nodes[a].commit <= |run[i].nodes[a].log|
    ensures run[i].nodes[a].log[..run[i].nodes[a].commit] <= run[j].nodes[b].log
  {
    hide Inv, Grows, AdmissibleRun, Has;
    var hs := Chronicled(run, acts, true);
    var m := |run| - 1;
    var s, l := run[i].nodes[a], run[j].nodes[b];
    if s.commit > 0 {
      var k := CommitOnRecord(run[i], hs[i], hs[m], a);
      LeaderLogOnRecord(run[j], hs[j], hs[m], b);
      LaterTermLog(run[m], hs[m], k, l.term);
      HasInOffice(hs[m].termLog[l.term], l.log, l.term, k);
      assert s.log[..s.commit] == hs[m].termLog[k.0][..k.1][..s.commit];
      assert l.log[..s.commit] == hs[m].termLog[l.term][..k.1][..s.commit];
    }
  }

  lemma LeaderLogOnRecord(c: Cluster, h: History, h': History, n: NodeId)
    requires Inv(c, h, true) && Grows(h, h') && n in c.nodes && Leads(c.nodes[n].role)
    ensures c.nodes[n].term in h'.termLog && TermLogGrows(c.nodes[n].term, c.nodes[n].log, h'.termLog[c.nodes[n].term])
  {
    hide ElectionInv, CommitInv;
    assert LogOf(c, h, n);
  }

  /** An entry of an earlier term was in the leader's log all along. */
  lemma HasInOffice(whole: Log, log: Log, u: nat, k: (nat, nat))
    requires TermLogGrows(u, log, whole) && Has(whole, k.0, k.1) && k.0 < u
    ensures k.1 <= |log|
  {
  }

  lemma TermLogOnRecord(h: History, log: Log, commit: nat, t: nat, k: (nat, nat))
    requires CoveredBy(h, log, commit, t, k)
    ensures k in h.committed && commit <= k.1 && commit <= |log| && k.0 in h.termLog
    ensures commit <= |h.termLog[k.0]| && log[..commit] == h.termLog[k.0][..commit]
  {
  }

  /** State-Machine Safety (section 5.4.3): no two nodes ever commit different
      entries at one index, and no node changes what it has committed. */
  lemma StateMachineSafety(run: seq<Cluster>, acts: seq<Action>, i: nat, j: nat, a: NodeId, b: NodeId, n: nat)
    requires AdmissibleRun(run, acts, true) && i < |run| && j < |run|
    requires a in run[i].nodes && b in run[j].nodes
    requires n <= run[i].nodes[a].commit && n <= run[j].nodes[b].commit
    ensures n <= |run[i].nodes[a].log| && n <= |run[j].nodes[b].log|
    ensures run[i].nodes[a].log[..n] == run[j].nodes[b].log[..n]
  {
    hide Inv, Grows, AdmissibleRun, Has, CoveredBy;
    if n > 0 {
      var hs := Chronicled(run, acts, true);
      var m := |run| - 1;
      var s, r := run[i].nodes[a], run[j].nodes[b];
      var k := CommitOnRecord(run[i], hs[i], hs[m], a);
      var l := CommitOnRecord(run[j], hs[j], hs[m], b);
      TermLogOnRecord(hs[m], s.log, s.commit, s.term, k);
      TermLogOnRecord(hs[m], r.log, r.commit, r.term, l);
      if k.0 <= l.0 { LaterTermLog(run[m], hs[m], k, l.0); } else { LaterTermLog(run[m], hs[m], l, k.0); }
      SamePrefix(s.log, hs[m].termLog[k.0], s.commit, n);
      SamePrefix(r.log, hs[m].termLog[l.0], r.commit, n);
      SamePrefix(hs[m].termLog[k.0], hs[m].termLog[l.0], if k.0 <= l.0 then k.1 else l.1, n);
    }
  }

  lemma SamePrefix(a: Log, b: Log, k: nat, n: nat)
    requires n <= k <= |a| && k <= |b| && a[..k] == b[..k]
    ensures a[..n] == b[..n]
  {
    assert a[..n] == a[..k][..n] && b[..n] == b[..k][..n];
  }
}
