/** What a follower does with AppendEntries, in every reachable state: its log
    becomes the leader's at send time or stays, it replays what it cuts, and its
    ack may report more than the packet covered. */
module Following {
  import opened Types
  import opened Handlers
  import opened Clusters
  import opened Invariants
  import opened Moves
  import opened Replication
  import Effects
  import Provenance
  import Refinement
  import Safety
  import Logs

  // ---------------------------------------------------- accepting a packet

  /** The packet passes the term check and the consistency check. */
  predicate Passes(s: Node, p: Payload)
    requires p.AppendEntries?
  {
    p.term >= s.term && PrevMatches(s.log, p.prevIndex, p.prevTerm)
  }

  /** The leader's log, as a receiver that passes the packet reads it. */
  function SentLog(log: Log, p: Payload): Log
    requires p.AppendEntries? && PrevMatches(log, p.prevIndex, p.prevTerm)
  {
    log[..p.prevIndex] + p.entries
  }

  /** The leader sent m in step i of the run, when its log was `log`: the step
      may append several times and send after each. */
  ghost predicate SentAs(run: seq<Cluster>, acts: seq<Action>, i: nat, m: Packet, log: Log)
    requires IsRun(run, acts) && m.payload.AppendEntries?
  {
    Provenance.SentIn(run, acts, i, m)
    && run[i].nodes[m.payload.leader].log <= log <= run[i + 1].nodes[m.payload.leader].log
  }

  lemma PassedLog(h: History, s: Node, m: Packet, env: Env)
    requires m.payload.AppendEntries? && Passes(s, m.payload)
    requires Sound(h, s.log, s.term) && AppendPacket(h, m)
    requires m.payload.term in h.termLog && Sound(h, h.termLog[m.payload.term], m.payload.term)
    ensures var p := m.payload;
      var w := SentLog(s.log, p);
      && w <= h.termLog[p.term] && |w| == Covered(p)
      && HandleAppendEntries(s, m.src, p, env).node.log == Merge(s.log, w)
  {
    hide AcceptOrReject, StepDown, Sound, Merge;
    var p := m.payload;
    Refinement.StepDownShape(s, p.term, env);
    var s1 := if p.term > s.term then StepDown(s, p.term, env) else s;
    Logs.SoundGrows(h, h, s.log, s.term, p.term);
    if Overshoot(p) { Refinement.OvershootRejected(h, s.log, s.term, p); assert false; }
    var w := h.termLog[p.term][..Covered(p)];
    Logs.SoundPrefix(h, h.termLog[p.term], p.term, |w|);
    Refinement.AcceptedLog(h, s1, m, env, w, AcceptOrReject(s1, m.src, p, env));
    Refinement.SoundAgree(h, s.log, w, p.term, p.term);
    if p.prevIndex > 0 {
      assert s.log[p.prevIndex - 1].term == w[p.prevIndex - 1].term;
      assert s.log[..p.prevIndex] == w[..p.prevIndex];
    }
    assert w == w[..p.prevIndex] + w[p.prevIndex..];
  }

  lemma RejectedHere(s: Node, m: Packet, env: Env)
    requires m.payload.AppendEntries? && !PrevMatches(s.log, m.payload.prevIndex, m.payload.prevTerm)
    ensures var o := AcceptOrReject(s, m.src, m.payload, env);
      && o.node.id == s.id && o.node.log == s.log && o.node.term == s.term
      && o.sent == [Packet(s.id, To(m.src), AppendResponse(s.term, false, s.id, 0, env.battery, 0))]
  {
    hide NewElectionDeadline, AcceptEntries;
  }

  lemma FailedLog(s: Node, m: Packet, env: Env)
    requires m.payload.AppendEntries? && !Passes(s, m.payload)
    ensures HandleAppendEntries(s, m.src, m.payload, env).node.log == s.log
  {
    hide StepDown, AcceptOrReject;
    var p := m.payload;
    Refinement.StepDownShape(s, p.term, env);
    if p.term >= s.term {
      RejectedHere(if p.term > s.term then StepDown(s, p.term, env) else s, m, env);
    }
  }

  /** Receiving AppendEntries leaves a follower's log as it was, or makes it
      exactly the leader's log at the time of sending (section 5.3). */
  lemma AcceptOutcome(run: seq<Cluster>, acts: seq<Action>, n: NodeId, m: Packet, env: Env)
    requires AdmissibleRun(run, acts, false) && n in run[|acts|].nodes
    requires m in run[|acts|].msgs && m.payload.AppendEntries?
    ensures var s, p := run[|acts|].nodes[n], m.payload;
      var log' := HandleAppendEntries(s, m.src, p, env).node.log;
      if Passes(s, p) then
        && log' == (if SentLog(s.log, p) <= s.log then s.log else SentLog(s.log, p))
        && exists i :: SentAs(run, acts, i, m, SentLog(s.log, p))
      else log' == s.log
  {
    hide Inv, Grows, HandleAppendEntries, Sound, Passes, AppendPacket, Provenance.SentIn, Init, Enabled, Apply,
      Admissible;
    var c, s, p := run[|acts|], run[|acts|].nodes[n], m.payload;
    if Passes(s, p) {
      var hs := Safety.Chronicled(run, acts, false);
      var h := hs[|acts|];
      Refinement.AppendParts(c, h, m, false);
      Refinement.NodeLogSound(c, h, n, false);
      PassedLog(h, s, m, env);
      PassesParts(s, p);
      NotOvershoot(h, s, p);
      var i := Provenance.SentSometime(run, acts, m);
      SentLogIsLeaders(run, acts, i, n, m);
    } else {
      FailedLog(s, m, env);
    }
  }

  /** What the receiver reads off the packet is the sender's log, by Log
      Matching on the entry before the new ones. */
  lemma SentLogIsLeaders(run: seq<Cluster>, acts: seq<Action>, i: nat, n: NodeId, m: Packet)
    requires AdmissibleRun(run, acts, false) && n in run[|acts|].nodes && m.payload.AppendEntries?
    requires Provenance.SentIn(run, acts, i, m) && !Overshoot(m.payload)
    requires PrevMatches(run[|acts|].nodes[n].log, m.payload.prevIndex, m.payload.prevTerm)
    ensures SentAs(run, acts, i, m, SentLog(run[|acts|].nodes[n].log, m.payload))
  {
    hide Init, Enabled, Admissible, Fire;
    var p, l := m.payload, m.payload.leader;
    var log, after := run[|acts|].nodes[n].log, run[i + 1].nodes[l].log;
    var w := after[..Covered(p)];
    if p.prevIndex > 0 {
      assert after[p.prevIndex - 1] == w[p.prevIndex - 1];
      Safety.LogMatching(run, acts, |acts|, i + 1, n, l, p.prevIndex - 1);
    }
    assert after[..p.prevIndex] == w[..p.prevIndex];
    assert w == w[..p.prevIndex] + w[p.prevIndex..];
  }

  lemma Lengths(run: seq<Cluster>, acts: seq<Action>)
    requires AdmissibleRun(run, acts, false)
    ensures |run| == |acts| + 1
  {
  }

  lemma PassesParts(s: Node, p: Payload)
    requires p.AppendEntries? && Passes(s, p)
    ensures PrevMatches(s.log, p.prevIndex, p.prevTerm)
  {
  }

  /** The new commit index is the paper's min(leaderCommit, index of the last
      new entry), though the code takes the minimum with the log's length. */
  lemma CommitMatchesPaper(run: seq<Cluster>, acts: seq<Action>, n: NodeId, m: Packet, env: Env)
    requires AdmissibleRun(run, acts, true) && n in run[|acts|].nodes
    requires m in run[|acts|].msgs && m.payload.AppendEntries? && Passes(run[|acts|].nodes[n], m.payload)
    ensures var s, p := run[|acts|].nodes[n], m.payload;
      var last := p.prevIndex + |p.entries|;
      HandleAppendEntries(s, m.src, p, env).node.commit ==
      if p.leaderCommit > s.commit then (if p.leaderCommit <= last then p.leaderCommit else last) else s.commit
  {
    hide Inv, Grows, AdmissibleRun, HandleAppendEntries, Sound, Passes, AppendPacket;
    Safety.SafeIsAdmissible(run, acts);
    Lengths(run, acts);
    var c, s, p := run[|acts|], run[|acts|].nodes[n], m.payload;
    var hs := Safety.Chronicled(run, acts, true);
    var h := hs[|acts|];
    Refinement.AppendParts(c, h, m, true);
    Refinement.NodeLogSound(c, h, n, true);
    PassedLog(h, s, m, env);
    PassesParts(s, p);
    NotOvershoot(h, s, p);
    CommitCovered(c, h, m);
    AckOf(s, m, env);
    assert |Merge(s.log, SentLog(s.log, p))| >= Covered(p);
  }

  lemma NotOvershoot(h: History, s: Node, p: Payload)
    requires p.AppendEntries? && Passes(s, p) && Sound(h, s.log, s.term)
    ensures !Overshoot(p)
  {
    hide Sound;
    if Overshoot(p) { Refinement.OvershootRejected(h, s.log, s.term, p); }
  }

  lemma CommitCovered(c: Cluster, h: History, m: Packet)
    requires Inv(c, h, true) && m in c.msgs && m.payload.AppendEntries?
    requires m.payload.term in h.termLog && !Overshoot(m.payload)
    ensures m.payload.leaderCommit <= Covered(m.payload)
  {
    hide ElectionInv, LogInv;
    assert CommitPacket(h, m);
  }

  /** When the success ack reports no more than the message covered: exactly
      when the follower did not hold more than the leader sent, on top of the
      same log. */
  lemma FaithfulAckCondition(run: seq<Cluster>, acts: seq<Action>, n: NodeId, m: Packet, env: Env)
    requires AdmissibleRun(run, acts, false) && n in run[|acts|].nodes
    requires m in run[|acts|].msgs && m.payload.AppendEntries? && Passes(run[|acts|].nodes[n], m.payload)
    ensures var s, p := run[|acts|].nodes[n], m.payload;
      var sent := HandleAppendEntries(s, m.src, p, env).sent;
      && |sent| > 0
      && var ack := sent[|sent| - 1].payload;
      && ack.AppendResponse? && ack.success && ack.term == p.term
      && (ack.matchIndex <= ack.covered <==> !(SentLog(s.log, p) <= s.log && |s.log| > p.prevIndex + |p.entries|))
  {
    hide AdmissibleRun, HandleAppendEntries, Passes;
    Lengths(run, acts);
    AcceptOutcome(run, acts, n, m, env);
    PassesParts(run[|acts|].nodes[n], m.payload);
    AckOf(run[|acts|].nodes[n], m, env);
    var s, p := run[|acts|].nodes[n], m.payload;
    assert SentLog(s.log, p) <= s.log || HandleAppendEntries(s, m.src, p, env).node.log == SentLog(s.log, p);
  }

  lemma AckOf(s: Node, m: Packet, env: Env)
    requires m.payload.AppendEntries? && Passes(s, m.payload)
    ensures var o := HandleAppendEntries(s, m.src, m.payload, env);
      && |o.sent| > 0
      && o.sent[|o.sent| - 1] == Packet(s.id, To(m.src),
           AppendResponse(m.payload.term, true, s.id, |o.node.log|, env.battery, Covered(m.payload)))
      && o.node.term == m.payload.term
      && o.node.commit == Learn(s.(log := o.node.log), m.payload.leaderCommit).commit
  {
    hide StepDown, AcceptOrReject;
    var p := m.payload;
    Refinement.StepDownShape(s, p.term, env);
    AckOfAcceptance(if p.term > s.term then StepDown(s, p.term, env) else s, m, env);
  }

  lemma AckOfAcceptance(s: Node, m: Packet, env: Env)
    requires m.payload.AppendEntries? && PrevMatches(s.log, m.payload.prevIndex, m.payload.prevTerm)
    ensures var o := AcceptOrReject(s, m.src, m.payload, env);
      && |o.sent| > 0
      && o.sent[|o.sent| - 1] == Packet(s.id, To(m.src),
           AppendResponse(s.term, true, s.id, |o.node.log|, env.battery, Covered(m.payload)))
      && o.node.term == s.term
      && o.node.commit == Learn(s.(log := o.node.log), m.payload.leaderCommit).commit
  {
    hide StoreAll, NewElectionDeadline;
    Effects.StoreAllEffect(ResetElectionTimer(s, env).(leader := Some(m.payload.leader),
      role := if s.role == Candidate then Follower else s.role), m.payload.entries);
  }

  /** The provisional commands of what lies beyond the part that the log shares
      with the leader's log w, if both go on from there, sent to that leader. */
  function Replayed(s: Node, p: Payload, w: Log): seq<Packet>
    requires p.AppendEntries?
  {
    var d := Common(s.log, w);
    if d < |s.log| && d < |w| && Provisional(s.log[d..]) != [] && s.protocol != Raft && p.leader != s.id then
      [Packet(s.id, To(p.leader), ReconcileBatch(p.term, s.id, Provisional(s.log[d..])))]
    else []
  }

  /** What a follower sends when it accepts: all the provisional commands it
      cuts, in order and to the leader it heard, and then the ack. */
  lemma AcceptReplays(run: seq<Cluster>, acts: seq<Action>, n: NodeId, m: Packet, env: Env)
    requires AdmissibleRun(run, acts, false) && n in run[|acts|].nodes
    requires m in run[|acts|].msgs && m.payload.AppendEntries? && Passes(run[|acts|].nodes[n], m.payload)
    ensures var s, p := run[|acts|].nodes[n], m.payload;
      var sent := HandleAppendEntries(s, m.src, p, env).sent;
      |sent| > 0 && sent[..|sent| - 1] == Replayed(s, p, SentLog(s.log, p))
  {
    hide Inv, Grows, AdmissibleRun, HandleAppendEntries, Sound, Passes, AppendPacket, Provisional;
    Lengths(run, acts);
    var c, s, p := run[|acts|], run[|acts|].nodes[n], m.payload;
    var hs := Safety.Chronicled(run, acts, false);
    var h := hs[|acts|];
    Refinement.AppendParts(c, h, m, false);
    Refinement.NodeLogSound(c, h, n, false);
    PassedLog(h, s, m, env);
    PassesParts(s, p);
    NotOvershoot(h, s, p);
    PassedAgree(h, s, p);
    ReplaysOf(s, m, env);
  }

  lemma PassedAgree(h: History, s: Node, p: Payload)
    requires p.AppendEntries? && Passes(s, p) && Sound(h, s.log, s.term)
    requires p.term in h.termLog && Sound(h, h.termLog[p.term], p.term) && SentLog(s.log, p) <= h.termLog[p.term]
    ensures Agree(s.log, SentLog(s.log, p)) && Indexed(SentLog(s.log, p))
  {
    hide Sound;
    var w := SentLog(s.log, p);
    Logs.SoundPrefix(h, h.termLog[p.term], p.term, |w|);
    assert w == h.termLog[p.term][..|w|];
    Refinement.SoundAgree(h, s.log, w, s.term, p.term);
  }

  lemma ReplaysOf(s: Node, m: Packet, env: Env)
    requires m.payload.AppendEntries? && Passes(s, m.payload)
    requires Agree(s.log, SentLog(s.log, m.payload)) && Indexed(SentLog(s.log, m.payload))
    ensures var p := m.payload;
      var sent := HandleAppendEntries(s, m.src, p, env).sent;
      |sent| > 0 && sent[..|sent| - 1] == Replayed(s, p, SentLog(s.log, p))
  {
    hide StepDown, AcceptEntries, Agree, Indexed, Provisional, NewElectionDeadline;
    var p := m.payload;
    Refinement.StepDownShape(s, p.term, env);
    var s1 := if p.term > s.term then StepDown(s, p.term, env) else s;
    var s2 := ResetElectionTimer(s1, env).(leader := Some(p.leader),
      role := if s1.role == Candidate then Follower else s1.role);
    var w := SentLog(s.log, p);
    assert w[p.prevIndex..] == p.entries && w[..p.prevIndex] <= s2.log;
    StoreAllReplays(s2, w, p.prevIndex);
    AcceptSends(s2, m, env);
  }

  lemma AcceptSends(s: Node, m: Packet, env: Env)
    requires m.payload.AppendEntries?
    ensures var sent := AcceptEntries(s, m.src, m.payload, env).sent;
      |sent| > 0 && sent[..|sent| - 1] == StoreAll(s, m.payload.entries).sent
  {
    hide StoreAll, Learn;
  }
}
