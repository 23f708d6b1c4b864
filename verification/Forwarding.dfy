/** The way of one sensor report through the cluster while beliefs change: each
    coordinator that forwards it believes in a newer leader than the last. */
module Forwarding {
  import opened Types
  import opened Handlers
  import opened Clusters
  import opened Invariants
  import opened Effects
  import opened Leadership
  import Refinement
  import Safety

  // ------------------------------------------------------------ belief terms

  /** Node l leads term t in some state of the run up to k. */
  ghost predicate Led(run: seq<Cluster>, l: NodeId, t: nat, k: nat) {
    exists j :: 0 <= j <= k && j < |run| && LeadsAt(run[j], l, t)
  }

  predicate LeadsAt(c: Cluster, l: NodeId, t: nat) {
    l in c.nodes && Leads(c.nodes[l].role) && c.nodes[l].term == t
  }

  /** Every belief, and every packet that speaks for a leader, is about a node
      that has led the term it is from. */
  ghost predicate Evidenced(run: seq<Cluster>, since: Since, k: nat)
    requires k < |run|
  {
    && (forall n :: n in run[k].nodes && run[k].nodes[n].leader.Some? ==>
          n in since && Led(run, run[k].nodes[n].leader.value, since[n], k))
    && (forall m :: m in run[k].msgs && IsSpeech(m.payload) ==> Led(run, m.payload.leader, m.payload.term, k))
  }

  lemma LedLater(run: seq<Cluster>, l: NodeId, t: nat, k: nat, k': nat)
    requires Led(run, l, t, k) && k <= k'
    ensures Led(run, l, t, k')
  {
  }

  lemma EvidenceStep(run: seq<Cluster>, a: Action, since: Since, k: nat)
    requires k + 1 < |run| && Enabled(run[k], a) && run[k + 1] == Apply(run[k], a) && run[k].nodes[a.node].id == a.node
    requires Evidenced(run, since, k)
    ensures var s := run[k].nodes[a.node];
      Evidenced(run, NextSince(since, a.node, s, Fire(s, a).node), k + 1)
  {
    hide Fire, Led, OfficeEffect;
    var s, o := run[k].nodes[a.node], Fire(run[k].nodes[a.node], a);
    FireEffect(s, a);
    var since' := NextSince(since, a.node, s, o.node);
    forall n | n in run[k + 1].nodes && run[k + 1].nodes[n].leader.Some?
      ensures n in since' && Led(run, run[k + 1].nodes[n].leader.value, since'[n], k + 1)
    {
      if n == a.node {
        MoverEvidence(run, a, since, k);
      } else {
        LedLater(run, run[k].nodes[n].leader.value, since[n], k, k + 1);
      }
    }
    forall m | m in run[k + 1].msgs && IsSpeech(m.payload) ensures Led(run, m.payload.leader, m.payload.term, k + 1) {
      if m in run[k].msgs {
        LedLater(run, m.payload.leader, m.payload.term, k, k + 1);
      } else {
        assert m in o.sent && SpeechEffect(s, o.node, m);
        SpeakerLed(run, a, k, m);
      }
    }
  }

  lemma SpeakerLed(run: seq<Cluster>, a: Action, k: nat, m: Packet)
    requires k + 1 < |run| && Enabled(run[k], a) && run[k + 1] == Apply(run[k], a) && run[k].nodes[a.node].id == a.node
    requires IsSpeech(m.payload) && SpeechEffect(run[k].nodes[a.node], Fire(run[k].nodes[a.node], a).node, m)
    ensures Led(run, m.payload.leader, m.payload.term, k + 1)
  {
    hide Fire;
    assert LeadsAt(run[k], a.node, m.payload.term) || LeadsAt(run[k + 1], a.node, m.payload.term);
  }

  lemma MoverEvidence(run: seq<Cluster>, a: Action, since: Since, k: nat)
    requires k + 1 < |run| && Enabled(run[k], a) && run[k + 1] == Apply(run[k], a) && run[k].nodes[a.node].id == a.node
    requires Evidenced(run, since, k) && BeliefEffect(run[k].nodes[a.node], a, Fire(run[k].nodes[a.node], a).node)
    ensures var s, s' := run[k].nodes[a.node], Fire(run[k].nodes[a.node], a).node;
      var since' := NextSince(since, a.node, s, s');
      s'.leader.Some? ==> a.node in since' && Led(run, s'.leader.value, since'[a.node], k + 1)
  {
    hide Fire;
    var s, s' := run[k].nodes[a.node], Fire(run[k].nodes[a.node], a).node;
    if s'.leader == s.leader {
      if s.leader.Some? { LedLater(run, s.leader.value, since[a.node], k, k + 1); }
    } else if Leads(s'.role) && s'.leader == Some(s.id) {
      assert LeadsAt(run[k + 1], a.node, s'.term);
    } else if s'.leader.Some? {
      var l: NodeId :| Hears(a, s'.term, l) && s'.leader == Some(l);
      assert a.packet in run[k].msgs;
      LedLater(run, l, s'.term, k, k + 1);
    }
  }

  // -------------------------------------------------------- whole-run beliefs

  /** Beliefs with their terms, in every state of the run up to n. */
  ghost predicate Beliefs(run: seq<Cluster>, acts: seq<Action>, n: nat, hs: seq<History>, sinces: seq<Since>)
    requires IsRun(run, acts) && n < |run|
  {
    && |hs| == n + 1 && |sinces| == n + 1
    && (forall k :: 0 <= k <= n ==> BeliefAt(run, hs, sinces, k))
    && (forall k :: 0 <= k < n ==> BeliefMoves(run, acts, hs, sinces, k))
  }

  ghost predicate BeliefAt(run: seq<Cluster>, hs: seq<History>, sinces: seq<Since>, k: nat)
    requires k < |run| && k < |hs| && k < |sinces|
  {
    Inv(run[k], hs[k], false) && BeliefInv(run[k], hs[k], sinces[k]) && Evidenced(run, sinces[k], k)
  }

  ghost predicate BeliefMoves(run: seq<Cluster>, acts: seq<Action>, hs: seq<History>, sinces: seq<Since>, k: nat)
    requires IsRun(run, acts) && k < |acts| && k + 1 < |hs| && k + 1 < |sinces|
  {
    && Enabled(run[k], acts[k]) && run[k + 1] == Apply(run[k], acts[k])
    && var s := run[k].nodes[acts[k].node];
    && Moved(run[k], hs[k], acts[k], run[k + 1], hs[k + 1], Fire(s, acts[k]))
    && sinces[k + 1] == NextSince(sinces[k], acts[k].node, s, Fire(s, acts[k]).node)
  }

  lemma {:induction false} BelievedThroughout(run: seq<Cluster>, acts: seq<Action>, n: nat)
    returns (hs: seq<History>, sinces: seq<Since>)
    requires AdmissibleRun(run, acts, false) && n < |run|
    ensures Beliefs(run, acts, n, hs, sinces)
    decreases n
  {
    hide Inv, BeliefInv, Evidenced, Moved, Init, Fire, Enabled, Admissible;
    if n == 0 {
      hs, sinces := [Refinement.NoHistory], [map[]];
      StartsBelieving(run, acts);
    } else {
      var gs, earlier := BelievedThroughout(run, acts, n - 1);
      var h, since := BelieveNext(run, acts, gs, earlier, n - 1);
      hs, sinces := gs + [h], earlier + [since];
      forall k | 0 <= k <= n ensures BeliefAt(run, hs, sinces, k) {
        if k < n { assert BeliefAt(run, gs, earlier, k); }
      }
      forall k | 0 <= k < n ensures BeliefMoves(run, acts, hs, sinces, k) {
        if k < n - 1 { assert BeliefMoves(run, acts, gs, earlier, k); }
      }
    }
  }

  lemma StartsBelieving(run: seq<Cluster>, acts: seq<Action>)
    requires IsRun(run, acts)
    ensures BeliefAt(run, [Refinement.NoHistory], [map[]], 0)
  {
    Refinement.InitHolds(run[0], false);
    forall n | n in run[0].nodes ensures run[0].nodes[n].leader == None && !Leads(run[0].nodes[n].role) {
      assert Booted(run[0].nodes[n]);
    }
  }

  lemma BelieveNext(run: seq<Cluster>, acts: seq<Action>, hs: seq<History>, sinces: seq<Since>, k: nat)
    returns (h: History, since: Since)
    requires AdmissibleRun(run, acts, false) && k + 1 < |run| && |hs| == k + 1 && |sinces| == k + 1
    requires BeliefAt(run, hs, sinces, k)
    ensures Inv(run[k + 1], h, false) && BeliefInv(run[k + 1], h, since) && Evidenced(run, since, k + 1)
    ensures BeliefMoves(run, acts, hs + [h], sinces + [since], k)
  {
    hide Inv, BeliefInv, Evidenced, Moved, Init, Fire, Admissible;
    assert Enabled(run[k], acts[k]) && Admissible(run[k], acts[k], false);
    h := Refinement.StepKeeps(run[k], hs[k], acts[k], false);
    Safety.KeptParts(run[k], hs[k], run[k + 1], h, false);
    StepMoved(run[k], hs[k], acts[k], h);
    var s := run[k].nodes[acts[k].node];
    BeliefsStep(run[k], hs[k], sinces[k], acts[k], run[k + 1], h, Fire(s, acts[k]));
    Refinement.PeersOf(run[k], hs[k], acts[k].node, false);
    EvidenceStep(run, acts[k], sinces[k], k);
    since := NextSince(sinces[k], acts[k].node, s, Fire(s, acts[k]).node);
  }

  /** A belief in l from term t still leads somewhere newer, or ends at l, in
      every later state. */
  lemma {:induction false} DefersLater(run: seq<Cluster>, acts: seq<Action>, n: nat, hs: seq<History>,
                                       sinces: seq<Since>,
                                       l: NodeId, t: nat, i: nat, j: nat)
    requires IsRun(run, acts) && n < |run| && Beliefs(run, acts, n, hs, sinces) && i <= j <= n
    requires Won(hs[i], t, l) && Defers(run[i], sinces[i], l, t)
    ensures Won(hs[j], t, l) && Defers(run[j], sinces[j], l, t)
    decreases j - i
  {
    hide Init, Fire, Enabled, BeliefInv, Defers, Inv, Evidenced;
    if i < j {
      DefersLater(run, acts, n, hs, sinces, l, t, i, j - 1);
      assert BeliefAt(run, hs, sinces, j - 1) && BeliefMoves(run, acts, hs, sinces, j - 1);
      DefersOnce(run[j - 1], hs[j - 1], sinces[j - 1], acts[j - 1], run[j - 1 + 1], hs[j - 1 + 1], l, t);
    }
  }

  lemma DefersOnce(c: Cluster, h: History, since: Since, a: Action, c': Cluster, h': History, l: NodeId, t: nat)
    requires Enabled(c, a) && BeliefInv(c, h, since) && Moved(c, h, a, c', h', Fire(c.nodes[a.node], a))
    requires Won(h, t, l) && Defers(c, since, l, t)
    ensures Won(h', t, l) && Defers(c', NextSince(since, a.node, c.nodes[a.node], Fire(c.nodes[a.node], a).node), l, t)
  {
    hide Fire, BeliefInv, Defers, BeliefEffect, OfficeEffect, SpeechEffect;
    FireEffect(c.nodes[a.node], a);
    DefersStays(c, h, since, a, c', h', Fire(c.nodes[a.node], a), l, t);
  }

  // -------------------------------------------------------------------- hops

  /** In step `step` node `source` handed the report to `target`. */
  datatype Hop = Hop(step: nat, source: NodeId, target: NodeId)

  predicate TakesReport(a: Action, p: Payload) {
    p.SensorData? && ((a.LeafReport? && a.report == p) || (a.Deliver? && a.packet.payload == p))
  }

  ghost predicate Forwards(run: seq<Cluster>, acts: seq<Action>, x: Hop, p: Payload)
    requires IsRun(run, acts)
  {
    && x.step < |acts| && Enabled(run[x.step], acts[x.step]) && acts[x.step].node == x.source
    && TakesReport(acts[x.step], p)
    && Packet(x.source, To(x.target), p) in Fire(run[x.step].nodes[x.source], acts[x.step]).sent
  }

  /** The hops of one report: each takes up, in a later step, the packet that the
      hop before it sent. */
  ghost predicate Journey(run: seq<Cluster>, acts: seq<Action>, hops: seq<Hop>, p: Payload)
    requires IsRun(run, acts)
  {
    && (forall i :: 0 <= i < |hops| ==> Forwards(run, acts, hops[i], p))
    && (forall i :: 0 < i < |hops| ==> TakesUp(acts, hops[i - 1], hops[i], p))
  }

  ghost predicate TakesUp(acts: seq<Action>, x: Hop, y: Hop, p: Payload) {
    && x.step < y.step < |acts| && y.source == x.target
    && acts[y.step].Deliver? && acts[y.step].packet == Packet(x.source, To(x.target), p)
  }

  /** Who forwards a report believes in its target, another node. */
  lemma ForwarderBelieves(s: Node, a: Action, p: Payload, target: NodeId)
    requires TakesReport(a, p) && (a.LeafReport? ==> a.report.SensorData?)
    requires Packet(s.id, To(target), p) in Fire(s, a).sent
    ensures s.leader == Some(target) && target != s.id
  {
    hide HandleSensor;
    OnlyForwards(s, p, a.env, target);
  }

  lemma OnlyForwards(s: Node, p: Payload, env: Env, target: NodeId)
    requires p.SensorData? && Packet(s.id, To(target), p) in HandleSensor(s, p, env).sent
    ensures s.leader == Some(target) && target != s.id
  {
    hide Replicate, Enqueue, Filtered, SensorKey;
    if Leads(s.role) { SensorProclaims(s, p, env); }
  }

  lemma HopBelief(run: seq<Cluster>, acts: seq<Action>, n: nat, hs: seq<History>, sinces: seq<Since>, x: Hop,
                  p: Payload)
    requires IsRun(run, acts) && n < |run| && Beliefs(run, acts, n, hs, sinces) && Forwards(run, acts, x, p)
    requires x.step <= n
    ensures var c, since := run[x.step], sinces[x.step];
      && x.source in c.nodes && c.nodes[x.source].leader == Some(x.target) && x.target != x.source && x.source in since
      && Won(hs[x.step], since[x.source], x.target) && Defers(c, since, x.target, since[x.source])
      && since[x.source] <= c.nodes[x.source].term && Led(run, x.target, since[x.source], x.step)
  {
    hide Init, Fire, BeliefMoves, Led, Moved, BeliefInv, Inv;
    assert BeliefAt(run, hs, sinces, x.step);
    Refinement.PeersOf(run[x.step], hs[x.step], x.source, false);
    ForwarderBelieves(run[x.step].nodes[x.source], acts[x.step], p, x.target);
    OwnBelief(run[x.step], hs[x.step], sinces[x.step], x.source);
  }

  /** Along the hops of one report, whatever else happens in between, the belief
      that forwards it is from a strictly later term each time. `terms` holds
      the terms: each is one that the target has led by then, and none is above
      the forwarder's own. */
  lemma {:induction false} HopsGetNewer(run: seq<Cluster>, acts: seq<Action>, hops: seq<Hop>, p: Payload)
    returns (terms: seq<nat>)
    requires AdmissibleRun(run, acts, false) && Journey(run, acts, hops, p)
    ensures |terms| == |hops| && forall i, j :: 0 <= i < j < |hops| ==> terms[i] < terms[j]
    ensures forall i :: 0 <= i < |hops| ==>
      && hops[i].source in run[hops[i].step].nodes && terms[i] <= run[hops[i].step].nodes[hops[i].source].term
      && Led(run, hops[i].target, terms[i], hops[i].step)
  {
    hide Init, Fire, Admissible, Beliefs, Led, TakesReport;
    var n := |run| - 1;
    var hs, sinces := BelievedThroughout(run, acts, n);
    assert |sinces| == n + 1 && |hs| == n + 1 by { BeliefLengths(run, acts, n, hs, sinces); }
    forall i | 0 <= i < |hops| ensures hops[i].step <= n && hops[i].source in sinces[hops[i].step] {
      assert Forwards(run, acts, hops[i], p);
      HopBelief(run, acts, n, hs, sinces, hops[i], p);
    }
    terms := seq(|hops|, i requires 0 <= i < |hops| => sinces[hops[i].step][hops[i].source]);
    forall i, j | 0 <= i < j < |hops| ensures terms[i] < terms[j] {
      NewerLater(run, acts, n, hs, sinces, hops, p, i, j);
    }
    forall i | 0 <= i < |hops|
      ensures hops[i].source in run[hops[i].step].nodes && terms[i] <= run[hops[i].step].nodes[hops[i].source].term
        && Led(run, hops[i].target, terms[i], hops[i].step)
    {
      HopBelief(run, acts, n, hs, sinces, hops[i], p);
    }
  }

  lemma BeliefLengths(run: seq<Cluster>, acts: seq<Action>, n: nat, hs: seq<History>, sinces: seq<Since>)
    requires IsRun(run, acts) && n < |run| && Beliefs(run, acts, n, hs, sinces)
    ensures |hs| == n + 1 && |sinces| == n + 1
  {
  }

  lemma {:induction false} NewerLater(run: seq<Cluster>, acts: seq<Action>, n: nat, hs: seq<History>,
                                      sinces: seq<Since>,
                                      hops: seq<Hop>, p: Payload, i: nat, j: nat)
    requires IsRun(run, acts) && n == |run| - 1 && Beliefs(run, acts, n, hs, sinces) && Journey(run, acts, hops, p)
    requires i < j < |hops|
    ensures |sinces| == n + 1 && hops[i].step <= n && hops[j].step <= n
    ensures hops[i].source in sinces[hops[i].step] && hops[j].source in sinces[hops[j].step]
    ensures sinces[hops[i].step][hops[i].source] < sinces[hops[j].step][hops[j].source]
    decreases j
  {
    hide Init, Fire, Beliefs, Led, TakesReport, Enabled;
    BeliefLengths(run, acts, n, hs, sinces);
    var x, y := hops[j - 1], hops[j];
    assert Forwards(run, acts, x, p) && Forwards(run, acts, y, p) && TakesUp(acts, hops[j - 1], hops[j], p);
    HopBelief(run, acts, n, hs, sinces, x, p);
    HopBelief(run, acts, n, hs, sinces, y, p);
    DefersLater(run, acts, n, hs, sinces, x.target, sinces[x.step][x.source], x.step, y.step);
    if i < j - 1 { NewerLater(run, acts, n, hs, sinces, hops, p, i, j - 1); }
  }
}
