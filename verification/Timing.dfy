/** No spurious elections: while a leader's pings get through in time, no
    follower starts a timeout election. Clocks are reals and never step back. */
module Timing {
  import opened Types
  import opened Handlers
  import opened Clusters
  import opened Pacing
  import Ledger
  import Safety

  // ---------------------------------------------------------- ping interval

  /** In every reachable state the adaptive ping interval lies between the base
      and the cap. */
  lemma {:induction false} PingIntervalBounded(run: seq<Cluster>, acts: seq<Action>, n: NodeId)
    requires IsRun(run, acts) && n in run[0].nodes
    ensures n in run[|acts|].nodes
    ensures LIVENESS_PING_INTERVAL <= run[|acts|].nodes[n].pingInterval <= ECHOD_PING_MAX_INTERVAL
    decreases |acts|
  {
    hide Fire, Enabled, Init;
    if acts == [] {
      StartsAtBase(run[0], n);
    } else {
      var last := |acts| - 1;
      Safety.PrefixIsRun(run, acts);
      PingIntervalBounded(run[..last + 1], acts[..last], n);
      assert run[..last + 1][last] == run[last] && run[..last + 1][0] == run[0];
      if acts[last].node == n { StepKeepsPace(run[last], acts[last]); }
    }
  }

  lemma StepKeepsPace(c: Cluster, a: Action)
    requires Enabled(c, a)
    ensures Ledger.KeepsPace(c.nodes[a.node], Apply(c, a).nodes[a.node])
  {
    hide Fire;
    Ledger.EnabledAccounts(c, a);
  }

  lemma StartsAtBase(c: Cluster, n: NodeId)
    requires Init(c) && n in c.nodes
    ensures c.nodes[n].pingInterval == LIVENESS_PING_INTERVAL
  {
    assert Booted(c.nodes[n]);
  }

  /** An echoD leader's pings, one for each clock reading of `envs`. */
  function PingedAt(s: Node, envs: seq<Env>): Node {
    if envs == [] then s
    else SendPing(PingedAt(s, envs[..|envs| - 1])).node.(lastPing := envs[|envs| - 1].now)
  }

  /** An idle leader backs off to the cap within two pings and stays there. */
  lemma {:induction false} IdleBacksOff(s: Node, envs: seq<Env>)
    requires s.protocol == EchoD && Ledger.PaceOk(s) && s.lastActivity < s.lastPing
    requires forall i :: 0 <= i < |envs| ==> s.lastPing <= envs[i].now
    ensures var s' := PingedAt(s, envs);
      && s'.protocol == EchoD && s'.lastActivity == s.lastActivity < s'.lastPing
      && s'.pingInterval == (if |envs| == 0 then s.pingInterval
                             else if |envs| == 1 then Min(2.0 * s.pingInterval, ECHOD_PING_MAX_INTERVAL)
                             else ECHOD_PING_MAX_INTERVAL)
    decreases |envs|
  {
    if envs != [] {
      IdleBacksOff(s, envs[..|envs| - 1]);
    }
  }

  /** The leader after the steps `acts`, none of which is its timer's. */
  function Acted(s: Node, acts: seq<Action>): Node {
    if acts == [] then s
    else
      var before, a := Acted(s, acts[..|acts| - 1]), acts[|acts| - 1];
      if OtherStep(a) then Fire(before, a).node else before
  }

  /** The leader takes these steps, takes no entries from others, and goes on
      leading its term. */
  ghost predicate Active(s: Node, acts: seq<Action>) {
    forall i :: 0 <= i < |acts| ==> ActiveAt(s, acts, i)
  }

  ghost predicate ActiveAt(s: Node, acts: seq<Action>, i: nat)
    requires i < |acts|
  {
    && OtherStep(acts[i]) && !Ledger.TakesEntries(acts[i]) && s.lastPing <= acts[i].env.now
    && StaysLeader(Acted(s, acts[..i]), Fire(Acted(s, acts[..i]), acts[i]).node)
  }

  lemma {:induction false} ActivityRecorded(s: Node, acts: seq<Action>)
    requires Paces(s) && s.protocol == EchoD && Active(s, acts)
    ensures var s' := Acted(s, acts);
      SamePings(s, s') && Leads(s'.role) && (s'.log != s.log || s.lastActivity >= s.lastPing ==>
          s'.lastActivity >= s.lastPing)
    decreases |acts|
  {
    hide Fire;
    if acts != [] {
      var front, last := acts[..|acts| - 1], acts[|acts| - 1];
      forall i | 0 <= i < |front| ensures ActiveAt(s, front, i) {
        assert ActiveAt(s, acts, i);
        assert front[..i] == acts[..i];
      }
      ActivityRecorded(s, front);
      assert ActiveAt(s, acts, |acts| - 1);
      LeaderActs(Acted(s, front), last);
    }
  }

  /** Consensus activity snaps the interval back: if the log has grown since the
      last ping, by any steps of the leader or by the flush of its timer, the
      interval after the next ping is the base. */
  lemma ActivitySnapsBack(s: Node, acts: seq<Action>, env: Env)
    requires Paces(s) && s.protocol == EchoD && Active(s, acts) && s.lastPing <= env.now
    requires Due(Acted(s, acts), env) && Handlers.LeaderTick(Acted(s, acts), env).node.log != s.log
    ensures Handlers.LeaderTick(Acted(s, acts), env).node.pingInterval == LIVENESS_PING_INTERVAL
  {
    hide Fire, FlushIfDue, PingIfDue, HandoffIfLow, Acted, Active;
    var s' := Acted(s, acts);
    ActivityRecorded(s, acts);
    FlushKeepsPings(s', env);
    var o1 := FlushIfDue(s', env).node;
    HandoffKeepsPings(PingIfDue(o1, o1.pingInterval, env).node, env);
    Ledger.PingIfDueStill(o1, o1.pingInterval, env);
    Ledger.HandoffIfLowStill(PingIfDue(o1, o1.pingInterval, env).node, env);
    PingSnaps(o1, o1.pingInterval, env);
  }

  lemma PingSnaps(s: Node, interval: real, env: Env)
    requires s.protocol == EchoD && s.lastActivity >= s.lastPing && env.now - s.lastPing >= interval
    ensures PingIfDue(s, interval, env).node.pingInterval == LIVENESS_PING_INTERVAL
  {
    hide Heartbeats;
  }

  // ------------------------------------------------------ a watched follower

  /** A leader and one of its followers. `sent` holds the times at which pings
      were sent, `arrived` the ones that the follower has handled, `lastTick`
      the last time the leader's timer fired and `heard` the last time the
      follower handled a ping. */
  datatype Watch = Watch(leader: Node, follower: Node, sent: seq<real>, arrived: set<nat>, now: real, lastTick: real,
    heard: real)

  /** A timer of either node fires, a ping arrives, or one of them takes any
      other step. */
  datatype Event =
    | LeaderTimer(env: Env)
    | LeaderAct(step: Action)
    | Arrival(env: Env, ping: nat)
    | FollowerTimer(env: Env)
    | FollowerAct(step: Action)

  function When(e: Event): real {
    match e
    case LeaderAct(step) => step.env.now
    case FollowerAct(step) => step.env.now
    case LeaderTimer(env) => env.now
    case Arrival(env, _) => env.now
    case FollowerTimer(env) => env.now
  }

  /** Any step but a timer's. */
  predicate OtherStep(a: Action) {
    !a.TimerTick? && (a.LeafReport? ==> a.report.SensorData?)
  }

  /** Time moves on, the leader's timer fires at least every `slack` seconds and
      every ping arrives within `delay`. The leader goes on leading its term,
      and nothing of a newer term and no nomination reaches the follower. */
  ghost predicate Timely(w: Watch, e: Event, slack: real, delay: real) {
    && w.now <= When(e) <= w.lastTick + slack
    && (forall i: nat :: i < |w.sent| && i !in w.arrived ==> When(e) <= w.sent[i] + delay)
    && (e.Arrival? ==> e.ping < |w.sent|)
    && (e.LeaderTimer? ==> Leads(Tick(w.leader, e.env).node.role))
    && (e.LeaderAct? ==> OtherStep(e.step) && StaysLeader(w.leader, Fire(w.leader, e.step).node))
    && (e.FollowerAct? ==>
          OtherStep(e.step) && (e.step.Deliver? ==> UpToTerm(w.leader.term, e.step.packet.payload)))
  }

  function Next(w: Watch, e: Event): Watch {
    match e
    case LeaderTimer(env) =>
      w.(leader := Tick(w.leader, env).node, sent := if Due(w.leader, env) then w.sent + [env.now] else w.sent,
         lastTick := env.now, now := env.now)
    case LeaderAct(step) =>
      w.(leader := if OtherStep(step) then Fire(w.leader, step).node else w.leader, now := step.env.now)
    case Arrival(env, ping) =>
      w.(follower := HandlePing(w.follower, LivenessPing(w.leader.term, w.leader.id), env),
         arrived := w.arrived + {ping}, heard := env.now, now := env.now)
    case FollowerTimer(env) =>
      w.(follower := Tick(w.follower, env).node, now := env.now)
    case FollowerAct(step) =>
      w.(follower := if OtherStep(step) then Fire(w.follower, step).node else w.follower, now := step.env.now)
  }

  ghost predicate WatchInv(w: Watch, slack: real) {
    && Paces(w.leader) && Follows(w.follower, w.leader)
    && w.sent != [] && 0 in w.arrived
    && (forall i :: 0 < i < |w.sent| ==> w.sent[i] - w.sent[i - 1] < Cap(w.leader.protocol) + slack)
    && w.leader.lastPing == w.sent[|w.sent| - 1] && w.lastTick - w.leader.lastPing < Cap(w.leader.protocol)
    && (forall i: nat :: i in w.arrived ==> i < |w.sent| && w.sent[i] <= w.heard)
    && (forall i: nat :: i < |w.sent| ==> w.sent[i] <= w.now)
    && w.heard <= w.now
    && w.follower.electionDeadline >= w.heard + ShortestTimeout(w.leader.protocol)
  }

  /** The first ping that has not arrived, if there is one. */
  lemma {:induction false} FirstMissing(w: Watch, k: nat) returns (i: nat)
    requires k <= |w.sent| && 0 in w.arrived && k > 0 && forall j: nat :: j < k ==> j in w.arrived
    ensures 0 < i <= |w.sent| && (i < |w.sent| ==> i !in w.arrived) && i - 1 in w.arrived
    decreases |w.sent| - k
  {
    if k == |w.sent| || k !in w.arrived { i := k; } else { i := FirstMissing(w, k + 1); }
  }

  /** When the follower's timer fires its deadline lies ahead. */
  lemma NotYet(w: Watch, e: Event, slack: real, delay: real)
    requires WatchInv(w, slack) && Timely(w, e, slack, delay) && slack >= 0.0 && delay >= 0.0
    requires Cap(w.leader.protocol) + slack + delay < ShortestTimeout(w.leader.protocol)
    ensures When(e) < w.follower.electionDeadline
  {
    var i := FirstMissing(w, 1);
    assert w.sent[i - 1] <= w.heard;
    if i < |w.sent| {
      assert When(e) <= w.sent[i] + delay;
    }
  }

  lemma WatchStep(w: Watch, e: Event, slack: real, delay: real)
    requires WatchInv(w, slack) && Timely(w, e, slack, delay) && slack >= 0.0 && delay >= 0.0
    requires Cap(w.leader.protocol) + slack + delay < ShortestTimeout(w.leader.protocol)
    ensures WatchInv(Next(w, e), slack)
    ensures e.FollowerTimer? ==> Next(w, e).follower == w.follower
    ensures Next(w, e).leader.protocol == w.leader.protocol
  {
    hide Tick, HandlePing, Fire;
    match e {
      case LeaderTimer(env) => LeaderTickPings(w.leader, env);
      case LeaderAct(step) => LeaderActs(w.leader, step);
      case FollowerAct(step) => FollowerActs(w.follower, w.leader, step);
      case Arrival(env, _) => PingHeard(w.follower, w.leader, env);
      case FollowerTimer(env) =>
        NotYet(w, e, slack, delay);
        TickBefore(w.follower, env);
    }
  }

  lemma TickBefore(s: Node, env: Env)
    requires s.role in {Follower, Observer} && env.now < s.electionDeadline
    ensures Tick(s, env) == Out(s, [])
  {
  }

  function Watched(w: Watch, events: seq<Event>): Watch {
    if events == [] then w else Next(Watched(w, events[..|events| - 1]), events[|events| - 1])
  }

  ghost predicate AllTimely(w: Watch, events: seq<Event>, slack: real, delay: real) {
    forall i :: 0 <= i < |events| ==> Timely(Watched(w, events[..i]), events[i], slack, delay)
  }

  /** If the cap on the ping interval, the slack of the leader's timer and the
      delivery delay together stay below the shortest election timeout, a
      follower at or below the leader's term never starts a timeout election, in
      any number of events, whatever the order in which pings arrive and
      whatever else the two handle. */
  lemma {:induction false} NoSpuriousElection(w: Watch, events: seq<Event>, slack: real, delay: real)
    requires WatchInv(w, slack) && AllTimely(w, events, slack, delay) && slack >= 0.0 && delay >= 0.0
    requires Cap(w.leader.protocol) + slack + delay < ShortestTimeout(w.leader.protocol)
    ensures WatchInv(Watched(w, events), slack) && Watched(w, events).leader.protocol == w.leader.protocol
    ensures Watched(w, events).follower.role in {Follower, Observer}
    decreases |events|
  {
    hide Next;
    if events != [] {
      var last := |events| - 1;
      forall i | 0 <= i < last ensures Timely(Watched(w, events[..last][..i]), events[..last][i], slack, delay) {
        assert events[..last][..i] == events[..i];
      }
      NoSpuriousElection(w, events[..last], slack, delay);
      WatchStep(Watched(w, events[..last]), events[last], slack, delay);
    }
  }

  /** The watch as it starts: the follower has just handled the leader's latest
      ping. */
  lemma WatchStarts(l: Node, f: Node, env: Env, slack: real)
    requires Paces(l) && Follows(f, l) && l.lastPing <= env.now < l.lastPing + Cap(l.protocol)
    ensures WatchInv(Watch(l, HandlePing(f, LivenessPing(l.term, l.id), env), [l.lastPing], {0}, env.now, env.now,
      env.now), slack)
  {
    hide HandlePing;
    PingHeard(f, l, env);
  }
}
