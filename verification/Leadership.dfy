/** Who believes whom to lead, and how leadership is handed over. */
module Leadership {
  import opened Types
  import opened Handlers
  import opened Clusters
  import opened Invariants
  import opened Preservation
  import opened Effects
  import Elections
  import Refinement
  import Safety

  // ---------------------------------------------------------------- beliefs

  /** n's leader belief is from term since[n]; a history variable. */
  type Since = map<NodeId, nat>

  predicate Won(h: History, t: nat, l: NodeId) {
    t in h.elected && h.elected[t].leader == l
  }

  /** A belief in l from term t leads somewhere newer, or ends at l. */
  predicate Defers(c: Cluster, since: Since, l: NodeId, t: nat) {
    l in c.nodes &&
    var b := c.nodes[l].leader;
    b == None || b == Some(l) || (l in since && since[l] > t)
  }

  predicate BeliefOf(c: Cluster, h: History, since: Since, n: NodeId)
    requires n in c.nodes
  {
    var s := c.nodes[n];
    && (Leads(s.role) ==> s.leader == Some(n))
    && (s.leader.Some? ==>
          n in since && since[n] <= s.term && Won(h, since[n], s.leader.value)
          && Defers(c, since, s.leader.value, since[n]))
  }

  predicate SpeechPacket(c: Cluster, h: History, since: Since, m: Packet) {
    IsSpeech(m.payload) ==>
      Won(h, m.payload.term, m.payload.leader) && m.src == m.payload.leader
      && Defers(c, since, m.payload.leader, m.payload.term)
  }

  ghost predicate BeliefInv(c: Cluster, h: History, since: Since) {
    && (forall n :: n in c.nodes ==> BeliefOf(c, h, since, n))
    && (forall m :: m in c.msgs ==> SpeechPacket(c, h, since, m))
  }

  function NextSince(since: Since, n: NodeId, s: Node, s': Node): Since {
    if s'.leader == s.leader then since else since[n := s'.term]
  }

  /** What the belief step needs to know about elections. */
  ghost predicate Moved(c: Cluster, h: History, a: Action, c': Cluster, h': History, o: Out) {
    && Enabled(c, a) && c' == Apply(c, a) && o == Fire(c.nodes[a.node], a)
    && c.nodes[a.node].id == a.node && o.node.term >= c.nodes[a.node].term
    && (forall t :: t in h.elected ==> t in h'.elected && h'.elected[t] == h.elected[t])
    && (forall t: nat :: Won(h, t, a.node) ==> t <= c.nodes[a.node].term)
    && (Leads(c.nodes[a.node].role) ==> Won(h, c.nodes[a.node].term, a.node))
    && (Leads(o.node.role) ==> Won(h', o.node.term, a.node))
  }

  /** Whom the packet it hears names, the winner of the term it is from. */
  lemma HeardWinner(c: Cluster, h: History, since: Since, a: Action, l: NodeId, t: nat)
    requires BeliefInv(c, h, since) && Enabled(c, a) && Hears(a, t, l)
    ensures Won(h, t, l) && a.packet.src == l && l != a.node && Defers(c, since, l, t)
  {
    assert SpeechPacket(c, h, since, a.packet);
  }

  lemma OwnBelief(c: Cluster, h: History, since: Since, n: NodeId)
    requires BeliefInv(c, h, since) && n in c.nodes
    ensures BeliefOf(c, h, since, n)
  {
  }

  lemma LeaderBelievesItself(c: Cluster, h: History, since: Since, a: Action, c': Cluster, h': History, o: Out)
    requires BeliefInv(c, h, since) && Moved(c, h, a, c', h', o) && OfficeEffect(c.nodes[a.node], a, o.node)
    requires Leads(o.node.role)
    ensures o.node.leader == Some(a.node)
  {
    hide BeliefInv, Fire;
    OwnBelief(c, h, since, a.node);
    var s := c.nodes[a.node];
    if o.node.leader != Some(a.node) {
      if l: NodeId :| Hears(a, s.term, l) {
        HeardWinner(c, h, since, a, l, s.term);
      }
      assert false;
    }
  }

  /** Deferring to l stays true when n moves. */
  lemma DefersStays(c: Cluster, h: History, since: Since, a: Action, c': Cluster, h': History, o: Out, l: NodeId,
                    t: nat)
    requires BeliefInv(c, h, since) && Moved(c, h, a, c', h', o) && Won(h, t, l) && Defers(c, since, l, t)
    requires BeliefEffect(c.nodes[a.node], a, o.node)
    ensures Defers(c', NextSince(since, a.node, c.nodes[a.node], o.node), l, t)
  {
    hide BeliefInv, Fire;
    var s := c.nodes[a.node];
    if l == a.node && o.node.leader != s.leader && o.node.leader != None && o.node.leader != Some(l) {
      var l': NodeId :| Hears(a, o.node.term, l') && o.node.leader == Some(l');
      HeardWinner(c, h, since, a, l', o.node.term);
      assert t <= s.term;
    }
  }

  lemma MoverBelief(c: Cluster, h: History, since: Since, a: Action, c': Cluster, h': History, o: Out)
    requires BeliefInv(c, h, since) && Moved(c, h, a, c', h', o) && Effect(c.nodes[a.node], a, o)
    ensures BeliefOf(c', h', NextSince(since, a.node, c.nodes[a.node], o.node), a.node)
  {
    hide BeliefInv, Fire;
    var n, s := a.node, c.nodes[a.node];
    OwnBelief(c, h, since, n);
    if Leads(o.node.role) { LeaderBelievesItself(c, h, since, a, c', h', o); }
    if o.node.leader == s.leader {
      if s.leader.Some? { DefersStays(c, h, since, a, c', h', o, s.leader.value, since[n]); }
    } else if o.node.leader != None && !(Leads(o.node.role) && o.node.leader == Some(n)) {
      var l: NodeId :| Hears(a, o.node.term, l) && o.node.leader == Some(l);
      HeardWinner(c, h, since, a, l, o.node.term);
      DefersStays(c, h, since, a, c', h', o, l, o.node.term);
    }
  }

  lemma OtherBelief(c: Cluster, h: History, since: Since, a: Action, c': Cluster, h': History, o: Out, m: NodeId)
    requires BeliefInv(c, h, since) && Moved(c, h, a, c', h', o) && BeliefEffect(c.nodes[a.node], a, o.node)
    requires m in c.nodes && m != a.node
    ensures BeliefOf(c', h', NextSince(since, a.node, c.nodes[a.node], o.node), m)
  {
    hide BeliefInv, Fire;
    OwnBelief(c, h, since, m);
    if c.nodes[m].leader.Some? {
      DefersStays(c, h, since, a, c', h', o, c.nodes[m].leader.value, since[m]);
    }
  }

  lemma SentSpeech(c: Cluster, h: History, since: Since, a: Action, c': Cluster, h': History, o: Out, m: Packet)
    requires BeliefInv(c, h, since) && Moved(c, h, a, c', h', o) && SpeechEffect(c.nodes[a.node], o.node, m)
    ensures SpeechPacket(c', h', NextSince(since, a.node, c.nodes[a.node], o.node), m)
  {
    hide BeliefInv, Fire;
    OwnBelief(c, h, since, a.node);
  }

  lemma BeliefsStep(c: Cluster, h: History, since: Since, a: Action, c': Cluster, h': History, o: Out)
    requires BeliefInv(c, h, since) && Moved(c, h, a, c', h', o)
    ensures BeliefInv(c', h', NextSince(since, a.node, c.nodes[a.node], o.node))
  {
    hide Fire, BeliefOf, SpeechPacket, BeliefEffect, SpeechEffect, OfficeEffect;
    var since' := NextSince(since, a.node, c.nodes[a.node], o.node);
    FireEffect(c.nodes[a.node], a);
    forall n | n in c'.nodes ensures BeliefOf(c', h', since', n) {
      if n == a.node { MoverBelief(c, h, since, a, c', h', o); } else { OtherBelief(c, h, since, a, c', h', o, n); }
    }
    forall m | m in c'.msgs ensures SpeechPacket(c', h', since', m) {
      if m in o.sent {
        SentSpeech(c, h, since, a, c', h', o, m);
      } else {
        OldSpeech(c, h, since, a, c', h', o, m);
      }
    }
  }

  lemma OldSpeech(c: Cluster, h: History, since: Since, a: Action, c': Cluster, h': History, o: Out, m: Packet)
    requires BeliefInv(c, h, since) && Moved(c, h, a, c', h', o) && BeliefEffect(c.nodes[a.node], a, o.node)
    requires m in c.msgs
    ensures SpeechPacket(c', h', NextSince(since, a.node, c.nodes[a.node], o.node), m)
  {
    hide Fire, BeliefEffect;
    assert SpeechPacket(c, h, since, m);
    if IsSpeech(m.payload) {
      DefersStays(c, h, since, a, c', h', o, m.payload.leader, m.payload.term);
    }
  }

  lemma WinsOf(c: Cluster, h: History, n: NodeId)
    requires Inv(c, h, false) && n in c.nodes
    ensures c.nodes[n].id == n
    ensures Leads(c.nodes[n].role) ==> Won(h, c.nodes[n].term, n)
    ensures forall t: nat :: Won(h, t, n) ==> t <= c.nodes[n].term
  {
    hide LogInv, CommitInv;
    Elections.NodeVotes(c, h, n);
    Refinement.PeersOf(c, h, n, false);
    forall t: nat | Won(h, t, n) ensures t <= c.nodes[n].term {
      Elections.WinParts(c, h, t);
    }
  }

  /** The election invariant supplies what the belief step needs. */
  lemma StepMoved(c: Cluster, h: History, a: Action, h': History)
    requires Inv(c, h, false) && Enabled(c, a) && Kept(c, h, Apply(c, a), h', false)
    ensures Moved(c, h, a, Apply(c, a), h', Fire(c.nodes[a.node], a))
  {
    hide Fire, Inv;
    WinsOf(c, h, a.node);
    WinsOf(Apply(c, a), h', a.node);
    TermsGrow(c.nodes[a.node], a);
  }

  /** Every admissible run has beliefs to go with its last state. */
  lemma {:induction false} Believed(run: seq<Cluster>, acts: seq<Action>) returns (h: History, since: Since)
    requires AdmissibleRun(run, acts, false)
    ensures Inv(run[|acts|], h, false) && BeliefInv(run[|acts|], h, since)
    decreases |acts|
  {
    hide Inv, Apply, Fire, Admissible;
    if acts == [] {
      h, since := Refinement.NoHistory, map[];
      Refinement.InitHolds(run[0], false);
      forall n | n in run[0].nodes ensures BeliefOf(run[0], h, since, n) {
        assert Booted(run[0].nodes[n]);
      }
    } else {
      var last := |acts| - 1;
      Safety.PrefixRun(run, acts, false);
      var g, earlier := Believed(run[..last + 1], acts[..last]);
      h := Refinement.StepKeeps(run[last], g, acts[last], false);
      Safety.KeptParts(run[last], g, run[last + 1], h, false);
      StepMoved(run[last], g, acts[last], h);
      var o := Fire(run[last].nodes[acts[last].node], acts[last]);
      BeliefsStep(run[last], g, earlier, acts[last], run[last + 1], h, o);
      since := NextSince(earlier, acts[last].node, run[last].nodes[acts[last].node], o.node);
    }
  }

  /** A route of forwarded sensor reports: each node hands the report to the
      leader it believes in. */
  ghost predicate Route(c: Cluster, path: seq<NodeId>) {
    && (forall i :: 0 <= i < |path| ==> path[i] in c.nodes)
    && (forall i :: 0 <= i < |path| - 1 ==> c.nodes[path[i]].leader == Some(path[i + 1]) && path[i] != path[i + 1])
  }

  lemma {:induction false} BeliefsAreNewer(c: Cluster, h: History, since: Since, path: seq<NodeId>, i: nat, j: nat)
    requires BeliefInv(c, h, since) && Route(c, path) && i < j < |path| - 1
    ensures path[i] in since && path[j] in since && since[path[i]] < since[path[j]]
    decreases j
  {
    hide BeliefInv;
    OwnBelief(c, h, since, path[j - 1]);
    OwnBelief(c, h, since, path[j]);
    assert c.nodes[path[j - 1]].leader == Some(path[j - 1 + 1]);
    assert c.nodes[path[j]].leader == Some(path[j + 1]);
    if i < j - 1 { BeliefsAreNewer(c, h, since, path, i, j - 1); }
  }

  /** Sensor-report forwarding never cycles: a route visits no node twice, so it
      is no longer than the cluster is large. */
  lemma ForwardingEnds(run: seq<Cluster>, acts: seq<Action>, path: seq<NodeId>)
    requires AdmissibleRun(run, acts, false) && Route(run[|acts|], path)
    ensures forall i, j :: 0 <= i < j < |path| ==> path[i] != path[j]
    ensures |path| <= |run[|acts|].nodes|
  {
    hide Inv, BeliefInv, Admissible, Enabled, Apply;
    var c := run[|acts|];
    var h, since := Believed(run, acts);
    forall i, j | 0 <= i < j < |path| ensures path[i] != path[j] {
      if j < |path| - 1 {
        BeliefsAreNewer(c, h, since, path, i, j);
      } else if path[i] == path[j] {
        // The last node would forward again, like path[i].
        var longer := path + [path[i + 1]];
        BeliefsAreNewer(c, h, since, longer, i, j);
        assert false;
      }
    }
    Distinct(path);
    Within(Elements(path), c.nodes.Keys);
  }

  lemma {:induction false} Distinct(xs: seq<NodeId>)
    requires forall i, j :: 0 <= i < j < |xs| ==> xs[i] != xs[j]
    ensures |Elements(xs)| == |xs|
  {
    if xs != [] {
      var front, last := xs[..|xs| - 1], xs[|xs| - 1];
      Distinct(front);
      assert Elements(xs) == Elements(front) + {last};
      assert last !in Elements(front);
    }
  }

  // ---------------------------------------------------------------- handoff

  /** A handoff was sent by the winner of its term, which has left office for
      good in that term. */
  ghost predicate HandoffPacket(c: Cluster, h: History, m: Packet) {
    m.payload.LeadershipHandoff? ==>
      && Won(h, m.payload.term, m.payload.leader) && m.src == m.payload.leader && m.src in c.nodes
      && m.payload.term <= c.nodes[m.src].term
      && (m.payload.term == c.nodes[m.src].term ==> c.nodes[m.src].role in {Follower, Observer})
  }

  predicate SameHandoffTerm(m: Packet, m': Packet) {
    m.payload.LeadershipHandoff? && m'.payload.LeadershipHandoff? && m.payload.term == m'.payload.term
  }

  ghost predicate HandoffInv(c: Cluster, h: History) {
    && (forall m :: m in c.msgs ==> HandoffPacket(c, h, m))
    && (forall m, m' :: m in c.msgs && m' in c.msgs && SameHandoffTerm(m, m') ==> m == m')
  }

  lemma OldHandoff(c: Cluster, h: History, a: Action, c': Cluster, h': History, o: Out, m: Packet)
    requires HandoffPacket(c, h, m) && Moved(c, h, a, c', h', o) && OfficeEffect(c.nodes[a.node], a, o.node)
    ensures HandoffPacket(c', h', m)
  {
    hide Fire;
  }

  lemma NewHandoff(c: Cluster, h: History, a: Action, c': Cluster, h': History, o: Out, m: Packet)
    requires Moved(c, h, a, c', h', o) && SpeechEffect(c.nodes[a.node], o.node, m)
    ensures HandoffPacket(c', h', m)
    ensures m.payload.LeadershipHandoff? ==>
      && m.payload.term == c.nodes[a.node].term && Leads(c.nodes[a.node].role)
      && m.src == a.node && Won(h, m.payload.term, a.node)
  {
    hide Fire;
  }

  lemma HandoffStep(c: Cluster, h: History, a: Action, c': Cluster, h': History, o: Out)
    requires HandoffInv(c, h) && Moved(c, h, a, c', h', o)
    ensures HandoffInv(c', h')
  {
    hide Fire, Moved, HandoffPacket, SpeechEffect, OfficeEffect, BeliefEffect;
    assert c'.msgs == c.msgs + Elements(o.sent) by { MovedMessages(c, h, a, c', h', o); }
    MovedEffect(c, h, a, c', h', o);
    forall m | m in c'.msgs ensures HandoffPacket(c', h', m) {
      if m in o.sent { NewHandoff(c, h, a, c', h', o, m); } else { OldHandoff(c, h, a, c', h', o, m); }
    }
    forall m, m' | m in c'.msgs && m' in c'.msgs && SameHandoffTerm(m, m') ensures m == m'
    {
      if m in o.sent && m' !in o.sent { OneHandoff(c, h, a, c', h', o, m, m'); }
      if m' in o.sent && m !in o.sent { OneHandoff(c, h, a, c', h', o, m', m); }
    }
  }

  lemma MovedMessages(c: Cluster, h: History, a: Action, c': Cluster, h': History, o: Out)
    requires Moved(c, h, a, c', h', o)
    ensures c'.msgs == c.msgs + Elements(o.sent) && a.node in c.nodes
  {
  }

  lemma MovedEffect(c: Cluster, h: History, a: Action, c': Cluster, h': History, o: Out)
    requires Moved(c, h, a, c', h', o)
    ensures a.node in c.nodes && Effect(c.nodes[a.node], a, o)
  {
    hide Effect;
    FireEffect(c.nodes[a.node], a);
  }

  /** Who hands off leads, so it has not handed off in this term before. */
  lemma OneHandoff(c: Cluster, h: History, a: Action, c': Cluster, h': History, o: Out, m: Packet, earlier: Packet)
    requires HandoffInv(c, h) && Moved(c, h, a, c', h', o) && Effect(c.nodes[a.node], a, o)
    requires m in o.sent && m.payload.LeadershipHandoff? && earlier in c.msgs && earlier.payload.LeadershipHandoff?
    ensures m.payload.term != earlier.payload.term
  {
    hide Fire;
    assert SpeechEffect(c.nodes[a.node], o.node, m);
    NewHandoff(c, h, a, c', h', o, m);
    assert HandoffPacket(c, h, earlier);
  }

  lemma {:induction false} HandedOff(run: seq<Cluster>, acts: seq<Action>) returns (h: History)
    requires AdmissibleRun(run, acts, false)
    ensures Inv(run[|acts|], h, false) && HandoffInv(run[|acts|], h)
    decreases |acts|
  {
    hide Inv, Apply, Fire, Admissible;
    if acts == [] {
      h := Refinement.NoHistory;
      Refinement.InitHolds(run[0], false);
    } else {
      var last := |acts| - 1;
      Safety.PrefixRun(run, acts, false);
      var g := HandedOff(run[..last + 1], acts[..last]);
      h := Refinement.StepKeeps(run[last], g, acts[last], false);
      Safety.KeptParts(run[last], g, run[last + 1], h, false);
      StepMoved(run[last], g, acts[last], h);
      HandoffStep(run[last], g, acts[last], run[last + 1], h, Fire(run[last].nodes[acts[last].node], acts[last]));
    }
  }

  /** Step i of the run sends the handoff m. */
  ghost predicate HandsOff(run: seq<Cluster>, acts: seq<Action>, i: nat, m: Packet)
    requires IsRun(run, acts)
  {
    && i < |acts| && Enabled(run[i], acts[i]) && run[i + 1] == Apply(run[i], acts[i])
    && m in Fire(run[i].nodes[acts[i].node], acts[i]).sent && m.payload.LeadershipHandoff?
  }

  lemma {:induction false} MessagesStay(run: seq<Cluster>, acts: seq<Action>, i: nat, j: nat)
    requires IsRun(run, acts) && i <= j < |run|
    ensures run[i].msgs <= run[j].msgs
    decreases j - i
  {
    hide Init, Fire, Enabled;
    if i < j {
      MessagesStay(run, acts, i, j - 1);
      assert run[j - 1 + 1] == Apply(run[j - 1], acts[j - 1]);
    }
  }

  lemma Prefix(run: seq<Cluster>, acts: seq<Action>, k: nat)
    requires AdmissibleRun(run, acts, false) && k <= |acts|
    ensures AdmissibleRun(run[..k + 1], acts[..k], false)
    ensures k < |acts| ==>
        Enabled(run[k], acts[k]) && Admissible(run[k], acts[k], false) && run[k + 1] == Apply(run[k], acts[k])
  {
    hide Init, Apply, Enabled, Admissible;
    forall i | 0 <= i < k
      ensures Enabled(run[..k + 1][i], acts[..k][i]) && Admissible(run[..k + 1][i], acts[..k][i], false)
        && run[..k + 1][i + 1] == Apply(run[..k + 1][i], acts[..k][i])
    {
      assert Enabled(run[i], acts[i]);
    }
  }

  /** Across the cluster, at most one step of a run sends a handoff of a given
      term. */
  lemma HandoffOncePerTerm(run: seq<Cluster>, acts: seq<Action>, i: nat, j: nat, m: Packet, m': Packet)
    requires AdmissibleRun(run, acts, false)
    requires HandsOff(run, acts, i, m) && HandsOff(run, acts, j, m') && m.payload.term == m'.payload.term
    ensures i == j && m == m'
  {
    if i <= j { NoSecondHandoff(run, acts, i, j, m, m'); } else { NoSecondHandoff(run, acts, j, i, m', m); }
  }

  lemma NoSecondHandoff(run: seq<Cluster>, acts: seq<Action>, i: nat, j: nat, m: Packet, m': Packet)
    requires AdmissibleRun(run, acts, false) && i <= j
    requires HandsOff(run, acts, i, m) && HandsOff(run, acts, j, m') && m.payload.term == m'.payload.term
    ensures i == j && m == m'
  {
    hide Inv, Fire, Apply, Admissible, Init, Effect, Moved;
    Prefix(run, acts, j);
    var h := HandedOff(run[..j + 1], acts[..j]);
    var h' := Refinement.StepKeeps(run[j], h, acts[j], false);
    StepMoved(run[j], h, acts[j], h');
    var o := Fire(run[j].nodes[acts[j].node], acts[j]);
    MovedEffect(run[j], h, acts[j], run[j + 1], h', o);
    if i < j {
      SentStays(run, acts, i, j, m);
      OneHandoff(run[j], h, acts[j], run[j + 1], h', o, m', m);
    } else {
      SameStep(run[j].nodes[acts[j].node], acts[j], o, m, m');
    }
  }

  lemma SentStays(run: seq<Cluster>, acts: seq<Action>, i: nat, j: nat, m: Packet)
    requires IsRun(run, acts) && HandsOff(run, acts, i, m) && i < j < |run|
    ensures m in run[j].msgs
  {
    hide Init, Fire;
    MessagesStay(run, acts, i + 1, j);
    assert m in Elements(Fire(run[i].nodes[acts[i].node], acts[i]).sent);
  }

  lemma SameStep(s: Node, a: Action, o: Out, m: Packet, m': Packet)
    requires Effect(s, a, o) && m in o.sent && m' in o.sent && m.payload.LeadershipHandoff?
    requires m'.payload.LeadershipHandoff?
    ensures m == m'
  {
    hide BeliefEffect, OfficeEffect, SpeechEffect;
  }

  /** The sender of a handoff never leads its term again. */
  lemma HandoffEndsOffice(run: seq<Cluster>, acts: seq<Action>, i: nat, m: Packet, k: nat)
    requires AdmissibleRun(run, acts, false) && HandsOff(run, acts, i, m) && i < k < |run|
    ensures m.src in run[k].nodes && (run[k].nodes[m.src].term == m.payload.term ==> !Leads(run[k].nodes[m.src].role))
  {
    hide Inv, Fire, Apply, Admissible, Init;
    Prefix(run, acts, k);
    SentStays(run, acts, i, k, m);
    var h := HandedOff(run[..k + 1], acts[..k]);
    assert HandoffPacket(run[k], h, m);
  }

  /** The nominee has the highest known battery, and the least name among equals. */
  lemma {:induction false} SuccessorIsBest(s: Node, peers: seq<NodeId>)
    requires peers != []
    ensures Successor(s, peers) in peers
    ensures forall p :: p in peers ==>
      BatteryOf(s, p) < BatteryOf(s, Successor(s, peers))
      || (BatteryOf(s, p) == BatteryOf(s, Successor(s, peers)) && Successor(s, peers) <= p)
  {
    if |peers| > 1 {
      SuccessorIsBest(s, peers[..|peers| - 1]);
    }
  }

  /** A nominee that answers campaigns in a term above the handoff's and its own. */
  lemma NomineeCampaignsHigher(s: Node, p: Payload, env: Env)
    requires p.LeadershipHandoff?
    ensures var s' := HandleHandoff(s, p, env).node;
      s' == s || (s'.role == Candidate && s'.term > p.term && s'.term > s.term && s'.votedFor == Some(s.id))
    ensures s.protocol == EchoD && s.role != Observer && p.term >= s.term ==>
        HandleHandoff(s, p, env).node.role == Candidate
  {
    hide StepDown, StartElection;
    if s.protocol == EchoD && s.role != Observer && p.term >= s.term {
      StepDownEffect(s, p.term, env);
      StepDownKeepsObserver(s, p.term, env);
      Nominated(if p.term > s.term then StepDown(s, p.term, env) else s, env);
    }
  }

  lemma Nominated(s: Node, env: Env)
    requires s.role != Observer
    ensures var s' := StartElection(s, env).node;
      s'.role == Candidate && s'.term == s.term + 1 && s'.votedFor == Some(s.id)
  {
    hide NewElectionDeadline;
  }

  // ----------------------------------------------------------- LOCAL_LEADER

  /** Outside the follower's path, a LOCAL_LEADER's commit index cannot move. */
  lemma LocalCommitFrozen(s: Node, a: Action)
    requires a.LeafReport? ==> a.report.SensorData?
    requires s.role == LocalLeader && Fire(s, a).node.role == LocalLeader
    requires !(a.Deliver? && a.packet.payload.AppendEntries? && a.packet.payload.term == s.term)
    ensures Fire(s, a).node.commit == s.commit
  {
    hide Dispatch, HandleSensor, LeaderTick;
    match a {
      case Deliver(_, env, m) => LocalDeliverFrozen(s, m.src, m.payload, env);
      case LeafReport(_, env, p) => SensorProclaims(s, p, env);
      case TimerTick(_, env) => LeaderTickEffect(s, a, env);
      case _ =>
    }
  }

  lemma LocalDeliverFrozen(s: Node, sender: NodeId, p: Payload, env: Env)
    requires s.role == LocalLeader && Dispatch(s, sender, p, env).node.role == LocalLeader
    requires !(p.AppendEntries? && p.term == s.term)
    ensures Dispatch(s, sender, p, env).node.commit == s.commit
  {
    hide HandleSensor, HandleReconcile, HandleAppendEntries, StepDown, StartElection, BecomeLeader, UpToDate,
      AdvanceCommit, NewElectionDeadline;
    match p {
      case SensorData(_, _, _) => SensorProclaims(s, p, env);
      case ReconcileBatch(_, _, _) => ReconcileProclaims(s, p, env);
      case AppendEntries(_, _, _, _, _, _) => LocalAppendFrozen(s, sender, p, env);
      case LeadershipHandoff(_, _) => HandoffLeavesOffice(s, p, env);
      case RequestVote(_, _, _, _, _) => StepDownEffect(s, p.term, env);
      case VoteResponse(_, _, _, _) => StepDownEffect(s, p.term, env);
      case AppendResponse(_, _, _, _, _, _) => StepDownEffect(s, p.term, env);
      case LivenessPing(_, _) => StepDownEffect(s, p.term, env);
    }
  }

  lemma HandoffLeavesOffice(s: Node, p: Payload, env: Env)
    requires p.LeadershipHandoff?
    ensures HandleHandoff(s, p, env).node == s || HandleHandoff(s, p, env).node.role == Candidate
  {
    NomineeCampaignsHigher(s, p, env);
  }

  lemma LocalAppendFrozen(s: Node, sender: NodeId, p: Payload, env: Env)
    requires p.AppendEntries? && p.term != s.term && s.role == LocalLeader
    requires HandleAppendEntries(s, sender, p, env).node.role == LocalLeader
    ensures HandleAppendEntries(s, sender, p, env).node.commit == s.commit
  {
    hide StepDown, AcceptOrReject;
    if p.term > s.term {
      StepDownEffect(s, p.term, env);
      AcceptEffect(StepDown(s, p.term, env), sender, p, env);
    }
  }

  /** A LOCAL_LEADER's commit index is frozen while it stays LOCAL_LEADER: the
      ack path refuses it and no other node leads its term. */
  lemma {:induction false} LocalLeaderCommitsNothing(run: seq<Cluster>, acts: seq<Action>, n: NodeId, i: nat, j: nat)
    requires AdmissibleRun(run, acts, false) && i <= j < |run|
    requires forall k :: i <= k <= j ==> n in run[k].nodes && run[k].nodes[n].role == LocalLeader
    ensures run[j].nodes[n].commit == run[i].nodes[n].commit
    decreases j - i
  {
    hide Inv, Admissible, Fire;
    if i < j {
      LocalLeaderCommitsNothing(run, acts, n, i, j - 1);
      var hs := Safety.Chronicled(run, acts, false);
      assert run[j - 1 + 1] == Apply(run[j - 1], acts[j - 1]);
      LocalStep(run[j - 1], hs[j - 1], acts[j - 1], n);
    }
  }

  lemma LocalStep(c: Cluster, h: History, a: Action, n: NodeId)
    requires Inv(c, h, false) && Enabled(c, a) && n in c.nodes
    requires c.nodes[n].role == LocalLeader && Apply(c, a).nodes[n].role == LocalLeader
    ensures Apply(c, a).nodes[n].commit == c.nodes[n].commit
  {
    hide Inv, Fire;
    if a.node == n {
      if a.Deliver? && a.packet.payload.AppendEntries? && a.packet.payload.term == c.nodes[n].term {
        Refinement.LeaderHearsNobody(c, h, n, a.packet, false);
      }
      LocalCommitFrozen(c.nodes[n], a);
    }
  }
}
