/** What becomes of a sensor report: it is forwarded, kept, put in the log, or
    suppressed because it changes too little. Stated of whole steps. */
module Reports {
  import opened Types
  import opened Handlers
  import opened Clusters
  import opened Forwarding
  import opened Ledger

  function Key(p: Payload): string
    requires p.SensorData?
  {
    p.leaf + ":" + p.sensor
  }

  /** The last accepted value of the sensor is on record, and the report is within
      five percent of it. */
  predicate TooClose(s: Node, p: Payload)
    requires p.SensorData?
  {
    Key(p) in s.lastSensor &&
    var prev := s.lastSensor[Key(p)];
    Abs(p.value - prev) / Max(Abs(prev), 0.000000001) < 0.05
  }

  /** The node believes in another node. */
  predicate Defers(s: Node) {
    s.leader.Some? && s.leader.value != s.id
  }

  predicate Suppresses(s: Node, p: Payload)
    requires p.SensorData?
  {
    Leads(s.role) && s.protocol != Raft && TooClose(s, p)
  }

  /** No report is silently dropped. A node that does not lead and believes in
      another sends it on to that one, unchanged, and does nothing else. A leader
      of echo or echod suppresses it exactly when it is too close to the last
      accepted value. Otherwise the node takes in its reading, once: it holds it
      or puts it in an entry. */
  lemma NoReportDropped(s: Node, a: Action, p: Payload)
    requires TakesReport(a, p) && (a.LeafReport? ==> a.report.SensorData?)
    ensures var o, reading := Fire(s, a), Reading(p.sensor, p.value, p.leaf);
      if !Leads(s.role) && Defers(s) then
        o == Out(s, [Packet(s.id, To(s.leader.value), p)])
      else if Suppresses(s, p) then
        o == Out(s, [])
      else
        && s.log <= o.node.log
        && Held(o.node) + Bag(Recorded(o.node.log[|s.log|..])) == Held(s) + multiset{reading}
  {
    hide HandleSensor;
    TakenAlike(s, a, p);
    if (Leads(s.role) || !Defers(s)) && !Suppresses(s, p) {
      var created := SensorBalanced(s, p, a.env);
      assert HandleSensor(s, p, a.env).node.log[|s.log|..] == created;
      assert Bag([ReadingOf(p)]) == multiset{ReadingOf(p)} by { OneReading(p); }
    } else {
      NotTaken(s, p, a.env);
    }
  }

  lemma TakenAlike(s: Node, a: Action, p: Payload)
    requires TakesReport(a, p) && (a.LeafReport? ==> a.report.SensorData?)
    ensures Fire(s, a) == HandleSensor(s, p, a.env)
    ensures SensorIntake(s, p) ==
      if (Leads(s.role) || !Defers(s)) && !Suppresses(s, p) then [ReadingOf(p)] else []
  {
    hide HandleSensor;
  }

  lemma NotTaken(s: Node, p: Payload, env: Env)
    requires p.SensorData?
    ensures !Leads(s.role) && Defers(s) ==> HandleSensor(s, p, env) == Out(s, [Packet(s.id, To(s.leader.value), p)])
    ensures Suppresses(s, p) ==> HandleSensor(s, p, env) == Out(s, [])
  {
    hide Replicate, Enqueue;
  }

  lemma OneReading(p: Payload)
    requires p.SensorData?
    ensures Bag([ReadingOf(p)]) == multiset{ReadingOf(p)}
  {
    FlatOne(ReadingOf(p));
  }

  /** The log with one entry more, of its index, the leader's term and epoch. */
  predicate Extended(s: Node, s': Node, command: Command, trigger: Trigger) {
    s'.log == s.log + [LogEntry(|s.log| + 1, s.term, command, trigger, s.epoch)]
  }

  /** Where a reading goes that is taken in: to the pending list while nobody
      leads, to the log at once in raft and echo, and to the buffer in echod,
      until it is the tenth, which makes one entry of all of them. */
  lemma WhereReadingsGo(s: Node, a: Action, p: Payload)
    requires TakesReport(a, p) && (a.LeafReport? ==> a.report.SensorData?)
    requires (Leads(s.role) || !Defers(s)) && !Suppresses(s, p)
    ensures var s', reading := Fire(s, a).node, Reading(p.sensor, p.value, p.leaf);
      if !Leads(s.role) then
        s' == s.(pending := s.pending + [(reading, Delta)])
      else
        && s'.pending == s.pending
        && (s.protocol != Raft ==> s'.lastSensor == s.lastSensor[Key(p) := p.value])
        && (if s.protocol != EchoD then
              s'.batch == s.batch && Extended(s, s', reading, if s.protocol == Raft then Event else Delta)
            else if |s.batch| + 1 < 10 then
              s'.log == s.log && s'.batch == s.batch + [reading]
            else
              s'.batch == [] && Extended(s, s', Whole(s.batch + [reading]), Delta))
  {
    hide HandleSensor, Extended;
    TakenAlike(s, a, p);
    if !Leads(s.role) || s.protocol != EchoD { GoesPlainly(s, p, a.env); } else { GoesToBuffer(s, p, a.env); }
  }

  /** What a flush makes of the buffer: a single reading as it is, several as one
      batch that knows their number. */
  function Whole(batch: seq<Command>): Command
    requires batch != []
  {
    if |batch| == 1 then batch[0] else Batch(batch, |batch|)
  }

  lemma GoesPlainly(s: Node, p: Payload, env: Env)
    requires p.SensorData? && (!Leads(s.role) || s.protocol != EchoD)
    requires (Leads(s.role) || !Defers(s)) && !Suppresses(s, p)
    ensures var s' := HandleSensor(s, p, env).node;
      if !Leads(s.role) then s' == s.(pending := s.pending + [(ReadingOf(p), Delta)])
      else
        && s'.pending == s.pending && s'.batch == s.batch
        && (s.protocol != Raft ==> s'.lastSensor == s.lastSensor[Key(p) := p.value])
        && Extended(s, s', ReadingOf(p), if s.protocol == Raft then Event else Delta)
  {
    hide Heartbeats;
  }

  lemma GoesToBuffer(s: Node, p: Payload, env: Env)
    requires p.SensorData? && Leads(s.role) && s.protocol == EchoD && !Suppresses(s, p)
    ensures var s' := HandleSensor(s, p, env).node;
      && s'.pending == s.pending && s'.lastSensor == s.lastSensor[Key(p) := p.value]
      && (if |s.batch| + 1 < 10 then s'.log == s.log && s'.batch == s.batch + [ReadingOf(p)]
          else s'.batch == [] && Extended(s, s', Whole(s.batch + [ReadingOf(p)]), Delta))
  {
    hide FlushBatch;
    var s1 := s.(lastSensor := s.lastSensor[Key(p) := p.value], batch := s.batch + [ReadingOf(p)],
                 batchDeadline := if s.batchDeadline == None then Some(env.now + BATCH_WINDOW) else s.batchDeadline);
    FlushIsOneEntry(s1, env);
  }

  lemma FlushIsOneEntry(s: Node, env: Env)
    requires s.batch != []
    ensures var s' := FlushBatch(s, env).node;
      && s'.pending == s.pending && s'.lastSensor == s.lastSensor && s'.batch == []
      && Extended(s, s', Whole(s.batch), Delta)
  {
    hide Heartbeats;
  }

  /** The buffer of an echod leader leaves it as one entry at the first tick past
      its deadline. No other tick adds to a log or touches a buffer. */
  lemma TickFlushes(s: Node, a: Action)
    requires a.TimerTick?
    ensures var s' := Fire(s, a).node;
      if s.protocol == EchoD && Leads(s.role) && s.batch != [] && s.batchDeadline.Some?
         && a.env.now >= s.batchDeadline.value then
        s'.batch == [] && s'.batchDeadline == None && Extended(s, s', Whole(s.batch), Delta)
      else s'.log == s.log && s'.batch == s.batch
  {
    hide StartElection, LeaderTick, Extended;
    if Leads(s.role) {
      LeaderTickFlushes(s, a.env);
    } else {
      CampaignStill(s, a.env);
    }
  }

  lemma LeaderTickFlushes(s: Node, env: Env)
    ensures var s' := LeaderTick(s, env).node;
      if s.protocol == EchoD && s.batch != [] && s.batchDeadline.Some? && env.now >= s.batchDeadline.value then
        s'.batch == [] && s'.batchDeadline == None && Extended(s, s', Whole(s.batch), Delta)
      else s'.log == s.log && s'.batch == s.batch
  {
    hide FlushIfDue, PingIfDue, HandoffIfLow, Extended;
    FlushesIfDue(s, env);
    PingIfDueStill(s, RAFT_HEARTBEAT_INTERVAL, env);
    PingIfDueStill(s, LIVENESS_PING_INTERVAL, env);
    var s1 := FlushIfDue(s, env).node;
    PingIfDueStill(s1, s1.pingInterval, env);
    var s2 := PingIfDue(s1, s1.pingInterval, env).node;
    HandoffIfLowStill(s2, env);
    if s.protocol == EchoD { SameExtended(s, s1, LeaderTick(s, env).node); }
  }

  lemma SameExtended(s: Node, s1: Node, s': Node)
    requires s'.log == s1.log
    ensures forall c, t :: Extended(s, s1, c, t) <==> Extended(s, s', c, t)
  {
  }

  lemma FlushesIfDue(s: Node, env: Env)
    ensures var s' := FlushIfDue(s, env).node;
      if s.batch != [] && s.batchDeadline.Some? && env.now >= s.batchDeadline.value then
        s'.batch == [] && s'.batchDeadline == None && Extended(s, s', Whole(s.batch), Delta)
      else s'.log == s.log && s'.batch == s.batch
  {
    hide Heartbeats;
  }
}
