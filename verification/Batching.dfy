/** echoD's batching means the same as ECHO: the same reports at a continuous
    leader give the same commands in the same order, in no more log entries. */
module Batching {
  import opened Types
  import opened Handlers
  import opened Ledger

  /** What happens at a leader: a report arrives, its timer fires, or its buffer
      is flushed for whatever reason. */
  datatype Event =
    | Report(sensor: string, value: real, leaf: string, env: Env)
    | Timer(env: Env)
    | Flush(env: Env)

  function Step(s: Node, e: Event): Node {
    match e
    case Report(sensor, value, leaf, env) => HandleSensor(s, SensorData(sensor, value, leaf), env).node
    case Timer(env) => LeaderTick(s, env).node
    case Flush(env) => if s.protocol == EchoD then FlushBatch(s, env).node else s
  }

  function Steps(s: Node, events: seq<Event>): Node {
    if events == [] then s else Step(Steps(s, events[..|events| - 1]), events[|events| - 1])
  }

  /** The node leads throughout. */
  ghost predicate Continuous(s: Node, events: seq<Event>) {
    forall i :: 0 <= i <= |events| ==> LeadsAfter(s, events, i)
  }

  predicate LeadsAfter(s: Node, events: seq<Event>, i: nat)
    requires i <= |events|
  {
    Leads(Steps(s, events[..i]).role)
  }

  /** The commands the leader accepts in one event. */
  function Accepts(s: Node, e: Event): seq<Command> {
    match e
    case Report(sensor, value, leaf, _) => SensorIntake(s, SensorData(sensor, value, leaf))
    case _ => []
  }

  function Waiting(s: Node): nat { if s.batch == [] then 0 else 1 }

  /** From s to s' the leader put `commands` in its log or buffer, behind what
      was in the buffer, with at most one entry for each. */
  ghost predicate Emits(s: Node, s': Node, commands: seq<Command>) {
    && s.log <= s'.log
    && FlatAll(Recorded(s'.log[|s.log|..])) + FlatAll(s'.batch) == FlatAll(s.batch) + FlatAll(commands)
    && |s'.log| + Waiting(s') <= |s.log| + Waiting(s) + |commands|
  }

  /** From s to s' the leader appended one entry for each of `commands`. */
  ghost predicate Appends(s: Node, s': Node, commands: seq<Command>) {
    s.log <= s'.log && Recorded(s'.log[|s.log|..]) == commands
  }

  predicate SameFilter(s: Node, s': Node) {
    s'.lastSensor == s.lastSensor && s'.protocol == s.protocol
  }

  // ------------------------------------------------------------ one event

  lemma EmitsNothing(s: Node, s': Node)
    requires s'.log == s.log && s'.batch == s.batch
    ensures Emits(s, s', [])
  {
    assert Recorded(s'.log[|s.log|..]) == [];
  }

  lemma EmitsTrans(s: Node, s1: Node, s2: Node, a: seq<Command>, b: seq<Command>)
    requires Emits(s, s1, a) && Emits(s1, s2, b)
    ensures Emits(s, s2, a + b)
  {
    hide FlatAll, Recorded;
    var x, y := s1.log[|s.log|..], s2.log[|s1.log|..];
    assert s2.log[|s.log|..] == x + y;
    RecordedConcat(x, y);
    FlatConcat(Recorded(x), Recorded(y));
    FlatConcat(a, b);
    calc {
      FlatAll(Recorded(x)) + FlatAll(Recorded(y)) + FlatAll(s2.batch);
      FlatAll(Recorded(x)) + (FlatAll(Recorded(y)) + FlatAll(s2.batch));
      FlatAll(Recorded(x)) + (FlatAll(s1.batch) + FlatAll(b));
      FlatAll(Recorded(x)) + FlatAll(s1.batch) + FlatAll(b);
      FlatAll(s.batch) + FlatAll(a) + FlatAll(b);
      FlatAll(s.batch) + (FlatAll(a) + FlatAll(b));
    }
  }

  lemma RecordedConcat(a: Log, b: Log)
    ensures Recorded(a + b) == Recorded(a) + Recorded(b)
  {
  }

  /** A flush turns the buffer into one entry with the same meaning. */
  lemma FlushEmits(s: Node, env: Env)
    ensures Emits(s, FlushBatch(s, env).node, []) && SameFilter(s, FlushBatch(s, env).node)
  {
    hide Replicate, FlatAll;
    if s.batch == [] {
      EmitsNothing(s, FlushBatch(s, env).node);
    } else {
      var s1 := s.(batch := [], batchDeadline := None, lastActivity := env.now);
      var whole := if |s.batch| == 1 then s.batch[0] else Batch(s.batch, |s.batch|);
      ReplicateBalanced(s1, whole, Delta);
      assert FlushBatch(s, env).node.log[|s.log|..] == [NewEntry(s1, whole, Delta)];
      assert Recorded([NewEntry(s1, whole, Delta)]) == [whole];
      WholeIsBatch(s.batch, whole);
      NothingFlat();
    }
  }

  lemma NothingFlat()
    ensures FlatAll([]) == []
  {
  }

  lemma WholeIsBatch(batch: seq<Command>, whole: Command)
    requires batch != [] && whole == (if |batch| == 1 then batch[0] else Batch(batch, |batch|))
    ensures FlatAll([whole]) == FlatAll(batch)
  {
    FlatOne(whole);
    assert |batch| == 1 ==> batch == [whole];
  }

  lemma EnqueueEmits(s: Node, command: Command, env: Env)
    ensures Emits(s, Enqueue(s, command, env).node, [command]) && SameFilter(s, Enqueue(s, command, env).node)
  {
    hide FlushBatch, FlatAll;
    var s1 := s.(batch := s.batch + [command],
                 batchDeadline := if s.batchDeadline == None then Some(env.now + BATCH_WINDOW) else s.batchDeadline);
    FlatConcat(s.batch, [command]);
    NoEntries(s, s1);
    FlushEmits(s1, env);
    EmitsTrans(s, s1, FlushBatch(s1, env).node, [command], []);
    assert [command] + [] == [command];
  }

  lemma NoEntries(s: Node, s': Node)
    requires s'.log == s.log
    ensures FlatAll(Recorded(s'.log[|s.log|..])) == []
  {
    assert Recorded(s'.log[|s.log|..]) == [];
  }

  lemma EchoDStep(s: Node, e: Event)
    requires s.protocol == EchoD && Leads(s.role)
    ensures Emits(s, Step(s, e), Accepts(s, e)) && Step(s, e).protocol == EchoD
    ensures !e.Report? ==> Step(s, e).lastSensor == s.lastSensor
  {
    hide FlushBatch, Enqueue, Filtered, SensorKey, LeaderTick, Emits;
    match e {
      case Report(sensor, value, leaf, env) =>
        var p := SensorData(sensor, value, leaf);
        EmitsNothing(s, s);
        var s1 := s.(lastSensor := s.lastSensor[SensorKey(p) := p.value]);
        EnqueueEmits(s1, ReadingOf(p), env);
        SameEmits(s, s1, Enqueue(s1, ReadingOf(p), env).node, [ReadingOf(p)]);
      case Timer(env) => TimerEmits(s, env);
      case Flush(env) => FlushEmits(s, env);
    }
  }

  lemma SameEmits(s: Node, s1: Node, s2: Node, commands: seq<Command>)
    requires s1.log == s.log && s1.batch == s.batch && Emits(s1, s2, commands)
    ensures Emits(s, s2, commands)
  {
    hide FlatAll, Recorded;
  }

  lemma TimerEmits(s: Node, env: Env)
    requires s.protocol == EchoD
    ensures Emits(s, LeaderTick(s, env).node, []) && SameFilter(s, LeaderTick(s, env).node)
  {
    hide FlushBatch, PingIfDue, HandoffIfLow, Emits;
    var s1 := FlushIfDue(s, env).node;
    FlushEmits(s, env);
    EmitsNothing(s, s);
    PingKeeps(s1, s1.pingInterval, env);
    var s2 := PingIfDue(s1, s1.pingInterval, env).node;
    HandoffKeeps(s2, env);
    EmitsNothing(s1, LeaderTick(s, env).node);
    EmitsTrans(s, s1, LeaderTick(s, env).node, [], []);
    var none: seq<Command> := [];
    assert none + none == none;
  }

  predicate Keeps(s: Node, s': Node) {
    s'.log == s.log && s'.batch == s.batch && SameFilter(s, s')
  }

  lemma PingKeeps(s: Node, interval: real, env: Env)
    ensures Keeps(s, PingIfDue(s, interval, env).node)
  {
    hide Heartbeats, SendPing;
    SendPingKeeps(s);
  }

  lemma SendPingKeeps(s: Node)
    ensures Keeps(s, SendPing(s).node)
  {
    hide Min;
  }

  lemma HandoffKeeps(s: Node, env: Env)
    ensures Keeps(s, HandoffIfLow(s, env).node)
  {
    hide Successor, NewElectionDeadline;
  }

  lemma EchoStep(s: Node, e: Event)
    requires s.protocol == Echo && Leads(s.role)
    ensures Appends(s, Step(s, e), Accepts(s, e)) && Step(s, e).protocol == Echo
    ensures !e.Report? ==> Step(s, e).lastSensor == s.lastSensor
  {
    hide Replicate, PingIfDue, Filtered, SensorKey;
    match e {
      case Report(sensor, value, leaf, env) =>
        var p := SensorData(sensor, value, leaf);
        var s1 := s.(lastSensor := s.lastSensor[SensorKey(p) := p.value]);
        ReplicateBalanced(s1, ReadingOf(p), Delta);
        assert (s.log + [NewEntry(s1, ReadingOf(p), Delta)])[|s.log|..] == [NewEntry(s1, ReadingOf(p), Delta)];
        assert Recorded([NewEntry(s1, ReadingOf(p), Delta)]) == [ReadingOf(p)];
      case Timer(env) => PingKeeps(s, LIVENESS_PING_INTERVAL, env);
      case Flush(_) =>
    }
  }

  /** Both protocols filter alike. */
  lemma SameVerdict(s: Node, d: Node, e: Event)
    requires s.protocol == Echo && d.protocol == EchoD && Leads(s.role) && Leads(d.role) && s.lastSensor == d.lastSensor
    ensures Accepts(s, e) == Accepts(d, e)
    ensures Step(s, e).lastSensor == Step(d, e).lastSensor
  {
    hide Step, SensorKey, Emits, Appends;
    if e.Report? { SameRecord(s, d, e); } else { EchoStep(s, e); EchoDStep(d, e); }
  }

  lemma SameRecord(s: Node, d: Node, e: Event)
    requires s.protocol == Echo && d.protocol == EchoD && Leads(s.role) && Leads(d.role) && s.lastSensor == d.lastSensor
    requires e.Report?
    ensures Step(s, e).lastSensor == Step(d, e).lastSensor
  {
    hide Replicate, Enqueue, SensorKey, Emits;
    var p := SensorData(e.sensor, e.value, e.leaf);
    var d1 := d.(lastSensor := d.lastSensor[SensorKey(p) := p.value]);
    EnqueueEmits(d1, ReadingOf(p), e.env);
    ReplicateBalanced(s.(lastSensor := s.lastSensor[SensorKey(p) := p.value]), ReadingOf(p), Delta);
  }

  // ------------------------------------------------------------- any events

  lemma {:induction false} BothEmit(e0: Node, d0: Node, events: seq<Event>) returns (commands: seq<Command>)
    requires e0.protocol == Echo && d0.protocol == EchoD && e0.lastSensor == d0.lastSensor
    requires Continuous(e0, events) && Continuous(d0, events)
    ensures Appends(e0, Steps(e0, events), commands) && Emits(d0, Steps(d0, events), commands)
    ensures forall c :: c in commands ==> c.Reading?
    ensures Steps(e0, events).protocol == Echo && Steps(d0, events).protocol == EchoD
    ensures Steps(e0, events).lastSensor == Steps(d0, events).lastSensor
    decreases |events|
  {
    hide Step, Appends, Emits, Accepts;
    if events == [] {
      commands := [];
      EmitsNothing(d0, d0);
      AppendsNothing(e0);
    } else {
      var front, last := events[..|events| - 1], events[|events| - 1];
      ContinuousFront(e0, events);
      ContinuousFront(d0, events);
      commands := BothEmit(e0, d0, front);
      var e, d := Steps(e0, front), Steps(d0, front);
      EchoStep(e, last);
      EchoDStep(d, last);
      SameVerdict(e, d, last);
      AcceptsReadings(e, last);
      AppendsTrans(e0, e, Step(e, last), commands, Accepts(e, last));
      EmitsTrans(d0, d, Step(d, last), commands, Accepts(d, last));
      commands := commands + Accepts(e, last);
    }
  }

  lemma AcceptsReadings(s: Node, e: Event)
    ensures forall c :: c in Accepts(s, e) ==> c.Reading?
  {
  }

  lemma ContinuousFront(s: Node, events: seq<Event>)
    requires Continuous(s, events) && events != []
    ensures Continuous(s, events[..|events| - 1]) && Leads(Steps(s, events[..|events| - 1]).role)
  {
    hide Steps;
    var front := events[..|events| - 1];
    forall i | 0 <= i <= |front| ensures LeadsAfter(s, front, i) {
      assert LeadsAfter(s, events, i);
      assert front[..i] == events[..i];
    }
    assert LeadsAfter(s, events, |events| - 1);
  }

  lemma AppendsNothing(s: Node)
    ensures Appends(s, s, [])
  {
    assert Recorded(s.log[|s.log|..]) == [];
  }

  lemma AppendsTrans(s: Node, s1: Node, s2: Node, a: seq<Command>, b: seq<Command>)
    requires Appends(s, s1, a) && Appends(s1, s2, b)
    ensures Appends(s, s2, a + b)
  {
    var x, y := s1.log[|s.log|..], s2.log[|s1.log|..];
    assert s2.log[|s.log|..] == x + y;
    RecordedConcat(x, y);
  }

  lemma {:induction false} ReadingsAreFlat(commands: seq<Command>)
    requires forall c :: c in commands ==> c.Reading?
    ensures FlatAll(commands) == commands
  {
    if commands != [] {
      ReadingsAreFlat(commands[1..]);
      assert commands == [commands[0]] + commands[1..];
    }
  }

  /** For the same reports at a continuous leader, with timer events and flushes
      interleaved anywhere, flattening echoD's new entries and appending its
      buffer gives what was buffered at the start and then exactly the commands
      of ECHO's new entries, in order. Starting with an empty buffer, echoD uses
      no more entries; a leftover buffer can cost it one more. */
  lemma BatchingRefinesEcho(e0: Node, d0: Node, events: seq<Event>)
    requires e0.protocol == Echo && d0.protocol == EchoD && e0.lastSensor == d0.lastSensor
    requires Continuous(e0, events) && Continuous(d0, events)
    ensures var e, d := Steps(e0, events), Steps(d0, events);
      && e0.log <= e.log && d0.log <= d.log
      && FlatAll(Recorded(d.log[|d0.log|..])) + FlatAll(d.batch) == FlatAll(d0.batch) + Recorded(e.log[|e0.log|..])
      && |d.log| - |d0.log| + Waiting(d) <= |e.log| - |e0.log| + Waiting(d0)
  {
    hide Step, Steps, Continuous;
    var commands := BothEmit(e0, d0, events);
    ReadingsAreFlat(commands);
  }

  // ----------------------------------------------------------- batch window

  /** When the commands now in the buffer were accepted. */
  function Stamps(s: Node, events: seq<Event>): seq<real> {
    if events == [] then []
    else
      var front, e := events[..|events| - 1], events[|events| - 1];
      if Steps(s, events).batch == [] then []
      else if Accepts(Steps(s, front), e) != [] then Stamps(s, front) + [e.env.now]
      else Stamps(s, front)
  }

  /** The deadline is one window after the first command was buffered. */
  ghost predicate Stamped(s: Node, stamps: seq<real>) {
    && |stamps| == |s.batch|
    && (forall i, j :: 0 <= i <= j < |stamps| ==> stamps[i] <= stamps[j])
    && (s.batch != [] ==> s.batchDeadline == Some(stamps[0] + BATCH_WINDOW))
    && (s.batch == [] ==> s.batchDeadline == None)
  }

  ghost predicate Monotone(events: seq<Event>) {
    forall i, j :: 0 <= i <= j < |events| ==> events[i].env.now <= events[j].env.now
  }

  /** What an event does to the buffer. */
  ghost predicate BufferStep(s: Node, e: Event, s': Node) {
    || (s'.batch == [] && s'.batchDeadline == None)
    || (&& s'.batch == s.batch + Accepts(s, e)
        && s'.batchDeadline == (if s.batchDeadline == None && Accepts(s, e) != [] then Some(e.env.now + BATCH_WINDOW)
                                else s.batchDeadline)
        && (e.Timer? ==> s.batchDeadline == None || e.env.now < s.batchDeadline.value))
  }

  lemma FlushEmpties(s: Node, env: Env)
    ensures FlushBatch(s, env).node.batch == [] && FlushBatch(s, env).node.batchDeadline == None
  {
    hide Replicate;
    ReplicateBalanced(s.(batch := [], batchDeadline := None, lastActivity := env.now),
      if |s.batch| == 1 then s.batch[0] else Batch(s.batch, |s.batch|), Delta);
  }

  lemma EnqueueBuffers(s: Node, command: Command, env: Env)
    ensures var s' := Enqueue(s, command, env).node;
      || (s'.batch == [] && s'.batchDeadline == None)
      || (s'.batch == s.batch + [command]
          && s'.batchDeadline == (if s.batchDeadline == None then Some(env.now + BATCH_WINDOW) else s.batchDeadline))
  {
    hide FlushBatch;
    FlushEmpties(s.(batch := s.batch + [command],
      batchDeadline := if s.batchDeadline == None then Some(env.now + BATCH_WINDOW) else s.batchDeadline), env);
  }

  lemma Buffers(s: Node, e: Event)
    requires s.protocol == EchoD && Leads(s.role)
    ensures BufferStep(s, e, Step(s, e))
  {
    hide Enqueue, FlushBatch, LeaderTick, Filtered, SensorKey;
    match e {
      case Report(sensor, value, leaf, env) =>
        var p := SensorData(sensor, value, leaf);
        EnqueueBuffers(s.(lastSensor := s.lastSensor[SensorKey(p) := p.value]), ReadingOf(p), env);
      case Timer(env) => TimerBuffers(s, env);
      case Flush(env) => FlushEmpties(s, env);
    }
  }

  lemma TimerBuffers(s: Node, env: Env)
    requires s.protocol == EchoD
    ensures BufferStep(s, Timer(env), LeaderTick(s, env).node)
  {
    hide FlushBatch, PingIfDue, HandoffIfLow;
    var s1 := FlushIfDue(s, env).node;
    FlushEmpties(s, env);
    Ledger.PingIfDueStill(s1, s1.pingInterval, env);
    Ledger.HandoffIfLowStill(PingIfDue(s1, s1.pingInterval, env).node, env);
  }

  /** No reading waits in the buffer past its window: after a timer event at time
      t, all that is buffered was accepted less than BATCH_WINDOW before t. */
  lemma {:induction false} WindowCloses(s: Node, events: seq<Event>)
    requires s.protocol == EchoD && s.batch == [] && s.batchDeadline == None
    requires Continuous(s, events) && Monotone(events)
    ensures Steps(s, events).protocol == EchoD && Stamped(Steps(s, events), Stamps(s, events))
    ensures forall i :: 0 <= i < |Stamps(s, events)| ==>
        events != [] && Stamps(s, events)[i] <= events[|events| - 1].env.now
    ensures events != [] && events[|events| - 1].Timer? ==>
      forall i :: 0 <= i < |Stamps(s, events)| ==> Stamps(s, events)[i] > events[|events| - 1].env.now - BATCH_WINDOW
    decreases |events|
  {
    hide Step, Accepts;
    if events != [] {
      var front, last := events[..|events| - 1], events[|events| - 1];
      ContinuousFront(s, events);
      WindowCloses(s, front);
      Buffers(Steps(s, front), last);
      EchoDStep(Steps(s, front), last);
      AcceptsOne(Steps(s, front), last);
    }
  }

  lemma AcceptsOne(s: Node, e: Event)
    ensures |Accepts(s, e)| <= 1 && (Accepts(s, e) != [] ==> e.Report?)
  {
  }

  // ----------------------------------------------------------- delta filter

  /** The value of the latest report under `key` that the leader accepted. */
  function LastAccepted(s: Node, events: seq<Event>, key: string): Option<real> {
    if events == [] then None
    else
      var front, e := events[..|events| - 1], events[|events| - 1];
      if e.Report? && e.leaf + ":" + e.sensor == key && Accepts(Steps(s, front), e) != [] then Some(e.value)
      else LastAccepted(s, front, key)
  }

  /** The change from a to b is below the threshold. */
  predicate Small(a: real, b: real) {
    Abs(b - a) / Max(Abs(a), 0.000000001) < DELTA_THRESHOLD
  }

  /** Of one sensor's reports a continuous leader accepts exactly the first and
      those that differ enough from the last one it accepted, however many it
      suppressed in between, so a slow drift is reported too. */
  lemma {:induction false} FilterTracksAccepted(s: Node, events: seq<Event>, e: Event)
    requires s.protocol in {Echo, EchoD} && s.lastSensor == map[] && Continuous(s, events) && e.Report?
    ensures var last := LastAccepted(s, events, e.leaf + ":" + e.sensor);
      Accepts(Steps(s, events), e) == [] <==> last.Some? && Small(last.value, e.value)
  {
    hide Step, Steps, LastAccepted;
    Remembered(s, events, e.leaf + ":" + e.sensor);
    LeadsNow(s, events);
  }

  lemma LeadsNow(s: Node, events: seq<Event>)
    requires Continuous(s, events)
    ensures Leads(Steps(s, events).role)
  {
    assert LeadsAfter(s, events, |events|);
    assert events[..|events|] == events;
  }

  lemma {:induction false} Remembered(s: Node, events: seq<Event>, key: string)
    requires s.protocol in {Echo, EchoD} && s.lastSensor == map[] && Continuous(s, events)
    ensures var s' := Steps(s, events);
      && s'.protocol == s.protocol
      && (key in s'.lastSensor <==> LastAccepted(s, events, key).Some?)
      && (key in s'.lastSensor ==> LastAccepted(s, events, key) == Some(s'.lastSensor[key]))
    decreases |events|
  {
    hide Step, Accepts;
    if events != [] {
      ContinuousFront(s, events);
      Remembered(s, events[..|events| - 1], key);
      Records(Steps(s, events[..|events| - 1]), events[|events| - 1]);
    }
  }

  lemma Records(s: Node, e: Event)
    requires s.protocol in {Echo, EchoD} && Leads(s.role)
    ensures Step(s, e).protocol == s.protocol
    ensures Step(s, e).lastSensor ==
      if e.Report? && Accepts(s, e) != [] then s.lastSensor[e.leaf + ":" + e.sensor := e.value] else s.lastSensor
  {
    hide LeaderTick, FlushBatch, Replicate, Enqueue, Filtered;
    if s.protocol == Echo { EchoStep(s, e); } else { EchoDStep(s, e); }
    if e.Report? {
      var p := SensorData(e.sensor, e.value, e.leaf);
      var s1 := s.(lastSensor := s.lastSensor[SensorKey(p) := p.value]);
      EnqueueEmits(s1, ReadingOf(p), e.env);
      ReplicateBalanced(s1, ReadingOf(p), Delta);
    }
  }
}
