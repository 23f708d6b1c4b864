/** Runs in which the code breaks a promise once a hypothesis of the theorems is
    dropped. */
module Counterexamples {
  import opened Types
  import opened Handlers
  import opened Clusters
  import opened Traces
  import CatchUp
  import Ledger
  import Provenance

  // ------------------------------------------ an OBSERVER that votes twice

  /** Battery checks of a follower: it becomes OBSERVER and comes back in the
      same term, without its vote. */
  lemma CheckTwice(t: Trace, n: NodeId, now: real) returns (t': Trace)
    requires Valid(t) && n in Now(t).nodes && Now(t).protocol != Raft && Now(t).nodes[n].role != Observer
    ensures Valid(t') && Extends(t, t') && OnlyMoved(Now(t), Now(t'), {n})
    ensures Now(t').nodes[n] == Now(t).nodes[n].(role := Follower, votedFor := None)
  {
    hide IsRun, Keeps;
    var t1 := Walk(t, BatteryCheck(n, At(now, 10)));
    t' := Walk(t1, BatteryCheck(n, At(now, 30)));
  }

  /** Election Safety needs its hypothesis: in `echo` mode, a voter that passes
      through OBSERVER lets two nodes lead one term. */
  lemma TwoLeadersOfOneTerm() returns (run: seq<Cluster>, acts: seq<Action>)
    ensures IsRun(run, acts) && run[0].protocol == Echo
    ensures var c := run[|acts|];
      && 0 in c.nodes && 1 in c.nodes && c.nodes[0].term == c.nodes[1].term
      && Leads(c.nodes[0].role) && Leads(c.nodes[1].role)
  {
    hide IsRun;
    var t0 := Begin(Echo);
    var t1 := WinsWith(t0, 0, 2, 2.0);
    var t2 := CheckTwice(t1, 2, 3.0);
    var t3 := WinsWith(t2, 1, 2, 4.0);
    run, acts := t3.run, t3.acts;
  }

  // ----------------------------------------------------------- surplus acks

  /** Node 0 has committed an entry of term 2 that no other node holds; node 1
      holds an entry of term 1 in its place. */
  ghost predicate Lost(c: Cluster, now: real) {
    && Trio(c) && c.protocol == Raft
    && var a, b, d := c.nodes[0], c.nodes[1], c.nodes[2];
    && a.commit == 1 == |a.log| && a.log[0].term == 2 == a.term
    && b.role == Follower && b.term == 2 && b.pending == [] && |b.log| == 1 && b.log[0].term == 1 && b.commit == 0
    && b.electionDeadline <= now
    && d.role == Follower && d.term == 2 && d.log == [] && d.commit == 0
  }

  ghost predicate Rivals(c: Cluster) {
    && Trio(c) && c.protocol == Raft
    && var a, b, d := c.nodes[0], c.nodes[1], c.nodes[2];
    && a.role == Leader && a.term == 2 && a.log == [] && a.commit == 0 && Beaten(c, 0)
    && b.role == Leader && b.term == 1 && |b.log| == 1 && b.log[0].term == 1 && b.commit == 0 && b.pending == []
    && d.role == Follower && d.term == 2 && d.log == [] && d.commit == 0
  }

  lemma RivalsArise() returns (t: Trace)
    ensures Valid(t) && t.run[0].protocol == Raft && Keeps(t, Current) && Rivals(Now(t))
  {
    hide IsRun, FirstBeat, Keeps;
    t := Begin(Raft);
    t := WinsWith(t, 1, 0, 2.0);
    t := Reported(t, 1, 3.0);
    t := WinsWith(t, 0, 2, 4.0);
  }

  /** Node 1 has acked its own entry for a heartbeat that covered nothing. */
  ghost predicate Misled(c: Cluster) {
    && Trio(c) && c.protocol == Raft
    && var a, b, d := c.nodes[0], c.nodes[1], c.nodes[2];
    && a.role == Leader && a.term == 2 && a.log == [] && a.commit == 0
    && b.role == Follower && b.term == 2 && b.pending == [] && |b.log| == 1 && b.log[0].term == 1 && b.commit == 0
    && b.electionDeadline <= 8.0
    && d.role == Follower && d.term == 2 && d.log == [] && d.commit == 0
    && Packet(1, To(0), SurplusAck()) in c.msgs
  }

  function SurplusAck(): Payload {
    AppendResponse(2, true, 1, 1, 100, 0)
  }

  lemma Mislead(t: Trace) returns (t': Trace)
    requires Valid(t) && t.run[0].protocol == Raft && Keeps(t, Current) && Rivals(Now(t))
    ensures Valid(t') && t'.run[0].protocol == Raft && Keeps(t', Current) && Misled(Now(t'))
  {
    hide IsRun, Keeps;
    t' := HearsEmpty(t, FirstBeat(Now(t).nodes[0], 1), 1, 5.0);
  }

  lemma CommitMisled(t: Trace) returns (t': Trace)
    requires Valid(t) && t.run[0].protocol == Raft && Keeps(t, Current) && Misled(Now(t))
    ensures Valid(t') && t'.run[0].protocol == Raft && Keeps(t', Current) && Lost(Now(t'), 8.0)
  {
    hide IsRun, Keeps;
    t' := Reported(t, 0, 6.0);
    t' := Counts(t', 0, 1, SurplusAck(), 7.0);
  }

  /** A follower's ack that reports more than the heartbeat covered makes a
      leader commit an entry that nobody else holds. */
  lemma SurplusCommit() returns (t: Trace)
    ensures Valid(t) && t.run[0].protocol == Raft && Keeps(t, Current) && Lost(Now(t), 8.0)
  {
    hide IsRun, Keeps, Rivals, Misled, Lost;
    t := RivalsArise();
    t := Mislead(t);
    t := CommitMisled(t);
  }

  lemma WinsNext(t: Trace) returns (t': Trace)
    requires Valid(t) && Lost(Now(t), 8.0)
    ensures Valid(t') && Extends(t, t') && OnlyMoved(Now(t), Now(t'), {1, 2})
    ensures NewLeader(Now(t).nodes[1], Now(t').nodes[1], 8.0) && Now(t').nodes[2].term == 3
    ensures Now(t').nodes[2].commit == 0
    ensures Now(t').nodes[2].role == Follower
  {
    hide IsRun, NewLeader;
    t' := WinsWith(t, 1, 2, 8.0);
  }

  /** Leader Completeness needs acks to be exact: in `raft` mode, with all acks
      current, a leader commits an entry that the next term's leader lacks. */
  lemma SurplusAckLosesCommit() returns (run: seq<Cluster>, acts: seq<Action>)
    ensures IsRun(run, acts) && run[0].protocol == Raft && Keeps(Trace(run, acts), Current)
    ensures var c := run[|acts|];
      && 0 in c.nodes && 1 in c.nodes && c.nodes[0].commit == 1 == |c.nodes[0].log|
      && Leads(c.nodes[1].role) && c.nodes[1].term > c.nodes[0].term
      && !(c.nodes[0].log <= c.nodes[1].log)
  {
    hide IsRun, Keeps;
    var t := SurplusCommit();
    var t' := WinsNext(t);
    run, acts := t'.run, t'.acts;
  }

  lemma Pairs(t: Trace, l: NodeId, f: NodeId)
    requires Valid(t) && t.run[0].protocol == Raft && l in Now(t).nodes && f in Now(t).nodes && l != f
    requires Now(t).nodes[l].role == Leader && Now(t).nodes[f].term <= Now(t).nodes[l].term
    ensures CatchUp.Paired(Now(t).nodes[l], Now(t).nodes[f])
  {
    CatchUp.ReachablePair(t.run, t.acts, l, f);
  }

  /** Node 0 has committed an entry of term 2 at index 1 where node 1, leading
      term 3, holds one of term 1. */
  ghost predicate Clash(c: Cluster) {
    && Trio(c) && c.protocol == Raft
    && var a, b, d := c.nodes[0], c.nodes[1], c.nodes[2];
    && a.commit == 1 == |a.log| && a.log[0].term == 2
    && b.role == Leader && b.term == 3 && b.commit == 0 && OfTerms(b.log, [1, 3])
    && d.role == Follower && d.term == 3 && d.commit == 0
  }

  lemma ReachClash() returns (t: Trace)
    ensures Valid(t) && t.run[0].protocol == Raft && Keeps(t, Current) && Clash(Now(t))
  {
    hide IsRun, Keeps;
    t := SurplusCommit();
    t := WinsNext(t);
    t := Reported(t, 1, 9.0);
  }

  /** State-Machine Safety needs it too: from there, node 1 commits another entry
      at the same index. */
  lemma TwoCommitsAtOneIndex() returns (run: seq<Cluster>, acts: seq<Action>)
    ensures IsRun(run, acts) && run[0].protocol == Raft && Keeps(Trace(run, acts), Current)
    ensures var c := run[|acts|];
      && 0 in c.nodes && 1 in c.nodes
      && 1 <= c.nodes[0].commit <= |c.nodes[0].log| && 1 <= c.nodes[1].commit <= |c.nodes[1].log|
      && c.nodes[0].log[0] != c.nodes[1].log[0]
  {
    hide IsRun, Keeps, CatchUp.Paired;
    var t := ReachClash();
    Pairs(t, 1, 2);
    var last: real;
    t, last := BringUp(t, 1, 2, Now(t).nodes[1].lastPing + 10.0);
    run, acts := t.run, t.acts;
  }

  // ------------------------------------------------------------- stale acks

  /** Node n is a follower of term u with this log, ready to stand by `now`. */
  predicate Rests(s: Node, u: nat, now: real) {
    s.role == Follower && s.term == u && s.commit == 0 && s.pending == [] && s.electionDeadline <= now
  }

  predicate Heads(s: Node, u: nat) {
    s.role == Leader && s.term == u && s.commit == 0 && s.pending == []
  }

  predicate OfTerms(log: Log, terms: seq<nat>) {
    |log| == |terms| && forall k :: 0 <= k < |log| ==> log[k].term == terms[k]
  }

  /** Node 0, after two entries of term 1, is re-elected in term 3; node 2 has
      led term 2 and holds one entry of it. */
  ghost predicate Phase1(c: Cluster, now: real) {
    && Trio(c) && c.protocol == Raft
    && var a, b, d := c.nodes[0], c.nodes[1], c.nodes[2];
    && Heads(a, 3) && OfTerms(a.log, [1, 1])
    && Rests(b, 3, now) && b.log == []
    && Rests(d, 3, now) && OfTerms(d.log, [2])
  }

  /** Node 0 leads term 1 with the given entries; nobody else has heard of them. */
  ghost predicate Opening(c: Cluster, terms: seq<nat>) {
    && Trio(c) && c.protocol == Raft
    && var a, b, d := c.nodes[0], c.nodes[1], c.nodes[2];
    && Heads(a, 1) && OfTerms(a.log, terms)
    && Rests(b, 0, 4.0) && b.log == [] && Rests(d, 1, 4.0) && d.log == []
  }

  lemma Open() returns (t: Trace)
    ensures Valid(t) && t.run[0].protocol == Raft && Keeps(t, Exact) && Opening(Now(t), [])
  {
    hide IsRun, Keeps, FirstBeat;
    t := Begin(Raft);
    t := WinsWith(t, 0, 2, 2.0);
  }

  lemma Fill(t: Trace) returns (t': Trace)
    requires Valid(t) && t.run[0].protocol == Raft && Keeps(t, Exact) && Opening(Now(t), [])
    ensures Valid(t') && t'.run[0].protocol == Raft && Keeps(t', Exact) && Opening(Now(t'), [1, 1])
  {
    hide IsRun, Keeps;
    t' := Reported(t, 0, 3.0);
    t' := Reported(t', 0, 3.5);
  }

  /** Node 2 leads term 2 with the given entries, and node 0 has stepped down. */
  ghost predicate Deposed(c: Cluster, terms: seq<nat>) {
    && Trio(c) && c.protocol == Raft
    && var a, b, d := c.nodes[0], c.nodes[1], c.nodes[2];
    && Rests(a, 2, 12.0) && OfTerms(a.log, [1, 1])
    && Rests(b, 2, 12.0) && b.log == [] && Heads(d, 2) && OfTerms(d.log, terms)
  }

  lemma Depose(t: Trace) returns (t': Trace)
    requires Valid(t) && t.run[0].protocol == Raft && Keeps(t, Exact) && Opening(Now(t), [1, 1])
    ensures Valid(t') && t'.run[0].protocol == Raft && Keeps(t', Exact) && Deposed(Now(t'), [])
  {
    hide IsRun, Keeps;
    t' := WinsWith(t, 2, 1, 4.0);
    t' := HearsEmpty(t', FirstBeat(Now(t').nodes[2], 0), 0, 5.0);
  }

  lemma Diverge(t: Trace) returns (t': Trace)
    requires Valid(t) && t.run[0].protocol == Raft && Keeps(t, Exact) && Deposed(Now(t), [])
    ensures Valid(t') && t'.run[0].protocol == Raft && Keeps(t', Exact) && Deposed(Now(t'), [2])
  {
    hide IsRun, Keeps;
    t' := Reported(t, 2, 6.0);
  }

  lemma ReachPhase1() returns (t: Trace)
    ensures Valid(t) && t.run[0].protocol == Raft && Keeps(t, Exact) && Phase1(Now(t), 20.0)
  {
    hide IsRun, Keeps, Opening, Deposed;
    t := Open();
    t := Fill(t);
    t := Depose(t);
    t := Diverge(t);
    t := Return(t);
  }

  lemma Return(t: Trace) returns (t': Trace)
    requires Valid(t) && t.run[0].protocol == Raft && Keeps(t, Exact) && Deposed(Now(t), [2])
    ensures Valid(t') && t'.run[0].protocol == Raft && Keeps(t', Exact) && Phase1(Now(t'), 20.0)
  {
    hide IsRun, Keeps;
    t' := WinsWith(t, 0, 1, 12.0);
    t' := HearsEmpty(t', FirstBeat(Now(t').nodes[0], 2), 2, 13.0);
  }

  /** Node 1 has acked both entries to node 0, in term 3. */
  ghost predicate Phase2(c: Cluster, now: real) {
    && Trio(c) && c.protocol == Raft
    && var a, b, d := c.nodes[0], c.nodes[1], c.nodes[2];
    && Heads(a, 3) && OfTerms(a.log, [1, 1])
    && Rests(b, 3, now) && OfTerms(b.log, [1, 1])
    && Rests(d, 3, now) && OfTerms(d.log, [2])
    && Packet(1, To(0), OldAck()) in c.msgs
  }

  function OldAck(): Payload {
    AppendResponse(3, true, 1, 2, 100, 2)
  }

  lemma ReachPhase2(t: Trace) returns (t': Trace, now: real)
    requires Valid(t) && t.run[0].protocol == Raft && Keeps(t, Exact) && Phase1(Now(t), 20.0)
    ensures Valid(t') && t'.run[0].protocol == Raft && Keeps(t', Exact) && Phase2(Now(t'), now)
  {
    hide IsRun, Keeps, CatchUp.Paired;
    Pairs(t, 0, 1);
    t', now := BringUp(t, 0, 1, Max(20.0, Now(t).nodes[0].lastPing + 1.0));
    now := now + 2.0;
  }

  /** Node 2 has cut node 0's log to its own, in term 4. */
  ghost predicate Phase3(c: Cluster, now: real) {
    && Trio(c) && c.protocol == Raft
    && var a, b, d := c.nodes[0], c.nodes[1], c.nodes[2];
    && Rests(a, 4, now) && OfTerms(a.log, [2])
    && Rests(b, 4, now) && OfTerms(b.log, [1, 1])
    && Heads(d, 4) && OfTerms(d.log, [2])
    && Packet(1, To(0), OldAck()) in c.msgs
  }

  /** As Phase2, with node 2 in office in term 4. */
  ghost predicate Displaced(c: Cluster, now: real) {
    && Trio(c) && c.protocol == Raft
    && var a, b, d := c.nodes[0], c.nodes[1], c.nodes[2];
    && Heads(a, 3) && OfTerms(a.log, [1, 1])
    && Rests(b, 4, now) && OfTerms(b.log, [1, 1])
    && Heads(d, 4) && OfTerms(d.log, [2])
    && Packet(1, To(0), OldAck()) in c.msgs
  }

  lemma Displace(t: Trace, now: real) returns (t': Trace)
    requires Valid(t) && t.run[0].protocol == Raft && Keeps(t, Exact) && Phase2(Now(t), now)
    ensures Valid(t') && t'.run[0].protocol == Raft && Keeps(t', Exact) && Displaced(Now(t'), now + 2.0)
  {
    hide IsRun, Keeps;
    t' := WinsWith(t, 2, 1, now);
  }

  lemma ReachPhase3(t: Trace, now: real) returns (t': Trace, later: real)
    requires Valid(t) && t.run[0].protocol == Raft && Keeps(t, Exact) && Displaced(Now(t), now)
    ensures Valid(t') && t'.run[0].protocol == Raft && Keeps(t', Exact) && Phase3(Now(t'), later)
  {
    hide IsRun, Keeps, CatchUp.Paired;
    Pairs(t, 2, 0);
    t', later := BringUp(t, 2, 0, Max(now, Now(t).nodes[2].lastPing + 1.0));
    later := later + 2.0;
  }

  /** Node 0, re-elected in term 5, appends an entry; node 2 has heard of it. */
  ghost predicate Phase4(c: Cluster, now: real) {
    && Trio(c) && c.protocol == Raft
    && var a, b, d := c.nodes[0], c.nodes[1], c.nodes[2];
    && Heads(a, 5) && OfTerms(a.log, [2, 5])
    && Rests(b, 5, now) && OfTerms(b.log, [1, 1])
    && Rests(d, 5, now) && OfTerms(d.log, [2])
    && Packet(1, To(0), OldAck()) in c.msgs
  }

  /** As Phase4, before the entry of term 5. */
  ghost predicate Reelected(c: Cluster, now: real) {
    && Trio(c) && c.protocol == Raft
    && var a, b, d := c.nodes[0], c.nodes[1], c.nodes[2];
    && Heads(a, 5) && OfTerms(a.log, [2])
    && Rests(b, 5, now) && OfTerms(b.log, [1, 1])
    && Rests(d, 5, now) && OfTerms(d.log, [2])
    && Packet(1, To(0), OldAck()) in c.msgs
  }

  lemma Reelect(t: Trace, now: real) returns (t': Trace)
    requires Valid(t) && t.run[0].protocol == Raft && Keeps(t, Exact) && Phase3(Now(t), now)
    ensures Valid(t') && t'.run[0].protocol == Raft && Keeps(t', Exact) && Reelected(Now(t'), now + 3.0)
  {
    hide IsRun, Keeps;
    t' := WinsWith(t, 0, 1, now);
    t' := HearsEmpty(t', FirstBeat(Now(t').nodes[0], 2), 2, now + 1.0);
  }

  lemma ReachPhase4(t: Trace, now: real) returns (t': Trace)
    requires Valid(t) && t.run[0].protocol == Raft && Keeps(t, Exact) && Reelected(Now(t), now)
    ensures Valid(t') && t'.run[0].protocol == Raft && Keeps(t', Exact) && Phase4(Now(t'), now)
  {
    hide IsRun, Keeps;
    t' := Reported(t, 0, now);
  }

  /** Node 0 has committed its entry of term 5, which no other node holds. */
  ghost predicate Phase5(c: Cluster, now: real) {
    && Trio(c) && c.protocol == Raft
    && var a, b, d := c.nodes[0], c.nodes[1], c.nodes[2];
    && a.term == 5 && OfTerms(a.log, [2, 5]) && a.commit == 2
    && Rests(b, 5, now) && OfTerms(b.log, [1, 1])
    && Rests(d, 5, now) && OfTerms(d.log, [2])
  }

  lemma CountStale(t: Trace, now: real) returns (t': Trace)
    requires Valid(t) && t.run[0].protocol == Raft && Keeps(t, Exact) && Phase4(Now(t), now)
    ensures Valid(t') && t'.run[0].protocol == Raft && Keeps(t', Exact) && Phase5(Now(t'), now)
  {
    hide IsRun, Keeps;
    t' := Counts(t, 0, 1, OldAck(), now);
  }

  lemma Supersede(t: Trace, now: real) returns (t': Trace)
    requires Valid(t) && t.run[0].protocol == Raft && Keeps(t, Exact) && Phase5(Now(t), now)
    ensures Valid(t') && t'.run[0].protocol == Raft && Keeps(t', Exact)
    ensures Overruled(Now(t'))
  {
    hide IsRun, Keeps;
    t' := WinsWith(t, 2, 1, now);
  }

  ghost predicate Overruled(c: Cluster) {
    && 0 in c.nodes && 2 in c.nodes && c.nodes[0].commit == 2 == |c.nodes[0].log|
    && Leads(c.nodes[2].role) && c.nodes[2].term > c.nodes[0].term
    && !(c.nodes[0].log <= c.nodes[2].log)
  }

  /** Leader Completeness needs acks to be current: in `raft` mode, with all acks
      exact, node 0 counts the ack of a term in which it held other entries,
      and commits an entry that the next term's leader lacks. */
  lemma StaleAckLosesCommit() returns (run: seq<Cluster>, acts: seq<Action>)
    ensures IsRun(run, acts) && run[0].protocol == Raft && Keeps(Trace(run, acts), Exact)
    ensures Overruled(run[|acts|])
  {
    hide IsRun, Keeps, Phase1, Phase2, Displaced, Phase3, Phase4, Phase5, Reelected, Overruled;
    var now: real;
    var t := ReachPhase1();
    t, now := ReachPhase2(t);
    t := Displace(t, now);
    t, now := ReachPhase3(t, now + 2.0);
    t := Reelect(t, now);
    t := ReachPhase4(t, now + 3.0);
    t := CountStale(t, now + 3.0);
    t := Supersede(t, now + 3.0);
    run, acts := t.run, t.acts;
  }

  // ---------------------------------------------------- provisional entries

  /** A coordinator enters provisional mode. */
  lemma Partitioned(t: Trace, n: NodeId, now: real) returns (t': Trace)
    requires Valid(t) && n in Now(t).nodes && Now(t).protocol != Raft && Now(t).nodes[n].role != Leader
    ensures Valid(t') && Extends(t, t') && OnlyMoved(Now(t), Now(t'), {n})
    ensures Now(t').nodes[n] == Now(t).nodes[n].(epoch := Now(t).nodes[n].epoch + 1)
  {
    hide IsRun, Keeps;
    t' := Walk(t, PartitionControl(n, At(now, 100), false));
  }

  /** Node 0 leads, in provisional mode, and has created an entry in it; nothing
      is committed. */
  ghost predicate Provisional(c: Cluster) {
    && Trio(c) && c.protocol == Echo
    && var a, d := c.nodes[0], c.nodes[2];
    && a.role == Leader && a.term == 1 && |a.log| == 1 && a.log[0].term == 1 && a.log[0].index == 1
    && a.log[0].epoch == 1
    && a.commit == 0 && c.nodes[1].commit == 0 && AppendTo(a, 2) in c.msgs
    && Get(a.nextIndex, 2, 1) == 1
    && d.role == Follower && d.term == 1 && d.log == [] && d.commit == 0
  }

  lemma ReachProvisional() returns (t: Trace)
    ensures Valid(t) && t.run[0].protocol == Echo && Keeps(t, Current) && Keeps(t, Exact) && Provisional(Now(t))
  {
    hide IsRun, Keeps, AppendTo;
    t := ElectedApart();
    t := Reported(t, 0, 3.0);
  }

  lemma ElectedApart() returns (t: Trace)
    ensures Valid(t) && t.run[0].protocol == Echo && Keeps(t, Current) && Keeps(t, Exact)
    ensures var c := Now(t);
      var a, d := c.nodes[0], c.nodes[2];
      && c.protocol == Echo
      && a.role == Leader && a.term == 1 && a.log == [] && a.epoch == 1 && a.commit == 0 && c.nodes[1].commit == 0
      && Get(a.nextIndex, 2, 1) == 1
      && d.role == Follower && d.term == 1 && d.log == [] && d.commit == 0
  {
    hide IsRun, Keeps, FirstBeat;
    t := Begin(Echo);
    t := Partitioned(t, 0, 1.0);
    t := WinsWith(t, 0, 2, 2.0);
  }

  /** A provisional entry need not be committed. */
  lemma ProvisionalUncommitted() returns (run: seq<Cluster>, acts: seq<Action>)
    ensures IsRun(run, acts) && Ledger.EnabledAll(run, acts) && !Provenance.NeverProvisions(run, acts)
    ensures forall n :: n in run[|acts|].nodes ==> run[|acts|].nodes[n].commit == 0
  {
    hide IsRun, Keeps;
    var t := ReachProvisional();
    run, acts := t.run, t.acts;
    Ledger.RunEnabled(run, acts);
    HasProvisional(run, acts);
  }

  lemma HasProvisional(run: seq<Cluster>, acts: seq<Action>)
    requires IsRun(run, acts) && Provisional(run[|acts|])
    ensures Ledger.EnabledAll(run, acts) && !Provenance.NeverProvisions(run, acts)
  {
    hide IsRun, Provenance.NeverProvisions;
    Ledger.RunEnabled(run, acts);
    Provenance.ProvisionalExactly(run, acts);
    assert |run| == |acts| + 1;
    assert !Provenance.AllGlobal(run[|acts|]) by { assert 0 in run[|acts|].nodes; }
  }

  /** Provisional entries do get committed: a node that is elected while it is in
      provisional mode is LEADER, not LOCAL_LEADER, and in `echo` mode commits an
      entry that carries an epoch, with every ack current and exact. */
  lemma ProvisionalCommitted() returns (run: seq<Cluster>, acts: seq<Action>)
    ensures IsRun(run, acts) && run[0].protocol == Echo
    ensures Keeps(Trace(run, acts), Current) && Keeps(Trace(run, acts), Exact)
    ensures var c := run[|acts|];
      0 in c.nodes && c.nodes[0].role == Leader && c.nodes[0].commit == 1 == |c.nodes[0].log|
      && c.nodes[0].log[0].epoch == 1
  {
    hide IsRun, Keeps;
    var t := ReachProvisional();
    var a := Now(t).nodes[0];
    FirstPacket(a);
    t := HearsFirst(t, AppendTo(a, 2), 2, 4.0);
    t := Counts(t, 0, 2, AppendResponse(1, true, 2, 1, 100, 1), 5.0);
    run, acts := t.run, t.acts;
  }

  lemma FirstPacket(s: Node)
    requires Get(s.nextIndex, 2, 1) == 1
    ensures var m := AppendTo(s, 2);
      && m.src == s.id && m.dst == To(2) && m.payload.AppendEntries? && m.payload.term == s.term
      && m.payload.prevIndex == 0 && m.payload.entries == s.log && m.payload.leaderCommit == s.commit
  {
  }
}
