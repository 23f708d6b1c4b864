/** The coordinator as rpi/coordinator/echo_node.py writes it: an object whose
    handlers update its fields and send packets as they go. Each method is
    proved against the function of `Handlers` that says what it computes. */
module Coordinator {
  import opened Types
  import opened Handlers
  import opened Clusters

  class EchoCoordinator {
    const id: NodeId
    const protocol: Protocol
    const peers: seq<NodeId>
    const tie: TieBreak
    var role: Role
    var currentTerm: nat
    var votedFor: Option<NodeId>
    var log: Log
    var commitIndex: nat
    var votes: map<NodeId, Battery>
    var electionDeadline: real
    var nextIndex: map<NodeId, pos>
    var matchIndex: map<NodeId, nat>
    var lastPingTime: real
    var lastSensor: map<string, real>
    var currentLeader: Option<NodeId>
    var pendingTriggers: seq<(Command, Trigger)>
    var partitionEpoch: nat
    var batchBuffer: seq<Command>
    var batchDeadline: Option<real>
    var pingInterval: real
    var lastConsensusActivity: real
    var peerBatteries: map<NodeId, Battery>
    var handoffSent: bool
    var recentReconciles: seq<Command>
    /** Everything given to the transport, in order. */
    var outbox: seq<Packet>

    function State(): Node
      reads this
    {
      Node(id, protocol, peers, tie, role, currentTerm, votedFor, log, commitIndex, votes, electionDeadline,
           nextIndex, matchIndex, lastPingTime, lastSensor, currentLeader, pendingTriggers, partitionEpoch,
           batchBuffer, batchDeadline, pingInterval, lastConsensusActivity, peerBatteries, handoffSent,
             recentReconciles)
    }

    /** The object is in state `o.node` and has sent `o.sent` after `sent`. */
    ghost predicate After(sent: seq<Packet>, o: Out)
      reads this
    {
      State() == o.node && outbox == sent + o.sent
    }

    constructor (id: NodeId, allPeers: seq<NodeId>, protocol: Protocol, tie: TieBreak, env: Env)
      ensures this.id == id && this.protocol == protocol && this.tie == tie
      ensures Elements(peers) == Elements(allPeers) - {id}
      ensures Booted(State())
      ensures outbox == [] && electionDeadline == NewElectionDeadline(State(), env)
    {
      var others: seq<NodeId> := [];
      for i := 0 to |allPeers|
        invariant Elements(others) == Elements(allPeers[..i]) - {id}
      {
        assert Elements(allPeers[..i + 1]) == Elements(allPeers[..i]) + {allPeers[i]};
        if allPeers[i] != id {
          assert Elements(others + [allPeers[i]]) == Elements(others) + {allPeers[i]};
          others := others + [allPeers[i]];
        }
      }
      assert allPeers[..|allPeers|] == allPeers;
      this.id, this.protocol, this.peers, this.tie := id, protocol, others, tie;
      role, currentTerm, votedFor, log, commitIndex := Follower, 0, None, [], 0;
      votes, electionDeadline, nextIndex, matchIndex, lastPingTime := map[], 0.0, map[], map[], 0.0;
      lastSensor, currentLeader, pendingTriggers, partitionEpoch := map[], None, [], 0;
      batchBuffer, batchDeadline, pingInterval, lastConsensusActivity := [], None, LIVENESS_PING_INTERVAL, env.now;
      peerBatteries, handoffSent, recentReconciles, outbox := map[], false, [], [];
      new;
      ResetTimer(env);
    }

    method Send(recipient: NodeId, payload: Payload)
      modifies `outbox
      ensures outbox == old(outbox) + [Packet(id, To(recipient), payload)]
    {
      outbox := outbox + [Packet(id, To(recipient), payload)];
    }

    // -------------------------------------------------------------- timers

    method ResetTimer(env: Env)
      modifies `electionDeadline
      ensures After(old(outbox), Out(ResetElectionTimer(old(State()), env), []))
    {
      var timeout: real;
      if protocol == EchoD {
        var spread := ECHOD_ELECTION_TIMEOUT_MAX - ECHOD_ELECTION_TIMEOUT_MIN;
        timeout := ECHOD_ELECTION_TIMEOUT_MIN + (1.0 - env.battery as real / 100.0) * spread + tie as real / 1000.0;
      } else {
        timeout := env.timeout;
      }
      electionDeadline := env.now + timeout;
    }

    // ------------------------------------------------------ battery gating

    method CheckBattery(env: Env)
      modifies `role, `votedFor
      ensures After(old(outbox), Out(Handlers.CheckBattery(old(State()), env), []))
    {
      if protocol == Raft { return; }
      if env.battery < T_LOW && role != Observer {
        role := Observer;
        votedFor := None;
      } else if env.battery >= T_RESTORE && role == Observer {
        role := Follower;
      }
    }

    // --------------------------------------------------------- replication

    method SendAppendEntries(peer: NodeId)
      modifies `outbox
      ensures outbox == old(outbox) + [AppendTo(State(), peer)]
    {
      var prevIndex: nat := (Get(nextIndex, peer, 1) as int) - 1;
      var prevTerm := 0;
      if 0 < prevIndex <= |log| { prevTerm := log[prevIndex - 1].term; }
      var entries := if prevIndex <= |log| then log[prevIndex..] else [];
      Send(peer, AppendEntries(currentTerm, id, prevIndex, prevTerm, entries, commitIndex));
    }

    method SendHeartbeats()
      modifies `outbox
      ensures outbox == old(outbox) + Heartbeats(State())
    {
      ghost var all := Heartbeats(State());
      for i := 0 to |peers|
        invariant State() == old(State())
        invariant outbox == old(outbox) + all[..i]
      {
        SendAppendEntries(peers[i]);
        assert all[..i + 1] == all[..i] + [all[i]];
      }
      assert all[..|peers|] == all;
    }

    method ReplicateEntry(command: Command, trigger: Trigger)
      modifies `log, `outbox
      ensures After(old(outbox), Replicate(old(State()), command, trigger))
    {
      var entry := LogEntry(|log| + 1, currentTerm, command, trigger, partitionEpoch);
      log := log + [entry];
      SendHeartbeats();
    }

    method FlushPendingTriggers(env: Env)
      modifies `pendingTriggers, `lastConsensusActivity, `log, `outbox
      ensures After(old(outbox), FlushPending(old(State()), env))
    {
      if pendingTriggers == [] { return; }
      var pending := pendingTriggers;
      pendingTriggers := [];
      lastConsensusActivity := Later(env);
      if protocol == EchoD && |pending| > 1 {
        var commands := [];
        for i := 0 to |pending|
          invariant commands == Commands(pending)[..i]
        {
          commands := commands + [pending[i].0];
        }
        assert commands == Commands(pending);
        ReplicateEntry(Batch(commands, |pending|), pending[0].1);
      } else {
        ReplicateEach(pending);
      }
    }

    /** The loop "for command, trigger in pending" of two handlers. */
    method ReplicateEach(pending: seq<(Command, Trigger)>)
      modifies `log, `outbox
      ensures After(old(outbox), ReplicateAll(old(State()), pending))
    {
      hide Replicate;
      ghost var goal := ReplicateAll(State(), pending);
      for i := 0 to |pending|
        invariant goal.node == ReplicateAll(State(), pending[i..]).node
        invariant old(outbox) + goal.sent == outbox + ReplicateAll(State(), pending[i..]).sent
      {
        ghost var s := State();
        ghost var first := Replicate(s, pending[i].0, pending[i].1);
        assert pending[i..][0] == pending[i] && pending[i..][1..] == pending[i + 1..];
        assert ReplicateAll(s, pending[i..]).sent == first.sent + ReplicateAll(first.node, pending[i + 1..]).sent;
        ReplicateEntry(pending[i].0, pending[i].1);
      }
      assert pending[|pending|..] == [];
    }

    method FlushBatch(env: Env)
      modifies `batchBuffer, `batchDeadline, `lastConsensusActivity, `log, `outbox
      ensures After(old(outbox), Handlers.FlushBatch(old(State()), env))
    {
      hide Replicate;
      if batchBuffer == [] {
        batchDeadline := None;
        return;
      }
      var commands := batchBuffer;
      batchBuffer := [];
      batchDeadline := None;
      lastConsensusActivity := env.now;
      ReplicateEntry(if |commands| == 1 then commands[0] else Batch(commands, |commands|), Delta);
    }

    // ------------------------------------------------------------ liveness

    method SendLivenessPing()
      modifies `pingInterval, `outbox
      ensures After(old(outbox), SendPing(old(State())))
    {
      if protocol == EchoD {
        ghost var s, all := State(), Pings(State());
        for i := 0 to |peers|
          invariant State() == s
          invariant outbox == old(outbox) + all[..i]
        {
          assert all[i] == Packet(s.id, To(s.peers[i]), Ping(s));
          Send(peers[i], LivenessPing(currentTerm, id));
          assert all[..i + 1] == all[..i] + [all[i]];
        }
        assert all[..|peers|] == all;
        if lastConsensusActivity >= lastPingTime {
          pingInterval := LIVENESS_PING_INTERVAL;
        } else {
          pingInterval := Min(pingInterval * LIVENESS_BACKOFF_FACTOR, ECHOD_PING_MAX_INTERVAL);
        }
      } else {
        outbox := outbox + [Packet(id, Everyone, LivenessPing(currentTerm, id))];
      }
    }

    method HandleLivenessPing(p: Payload, env: Env)
      requires p.LivenessPing?
      modifies `currentTerm, `votedFor, `role, `electionDeadline, `currentLeader
      ensures After(old(outbox), Out(HandlePing(old(State()), p, env), []))
    {
      if p.term >= currentTerm {
        if p.term > currentTerm { StepDown(p.term, env); }
        currentLeader := Some(p.leader);
        ResetTimer(env);
      }
    }

    // ------------------------------------------------------------ election

    method StepDown(newTerm: nat, env: Env)
      modifies `currentTerm, `votedFor, `role, `electionDeadline
      ensures After(old(outbox), Out(Handlers.StepDown(old(State()), newTerm, env), []))
    {
      hide ResetElectionTimer;
      LeaveOffice(newTerm);
      if role != Observer { ResetTimer(env); }
    }

    method LeaveOffice(newTerm: nat)
      modifies `currentTerm, `votedFor, `role
      ensures currentTerm == newTerm && votedFor == None
      ensures role == if old(role) == Candidate || Leads(old(role)) then Follower else old(role)
    {
      currentTerm := newTerm;
      votedFor := None;
      if role == Candidate || role == Leader || role == LocalLeader { role := Follower; }
    }

    method StartElection(env: Env)
      modifies `currentTerm, `role, `votedFor, `currentLeader, `votes, `electionDeadline, `outbox
      ensures After(old(outbox), Handlers.StartElection(old(State()), env))
    {
      hide ResetElectionTimer, VoteRequests;
      if role == Observer { return; }
      Stand(env);
      RequestVotes(env);
    }

    method Stand(env: Env)
      modifies `currentTerm, `role, `votedFor, `currentLeader, `votes, `electionDeadline
      ensures var s := old(State());
        State() == ResetElectionTimer(s.(term := s.term + 1, role := Candidate, votedFor := Some(id), leader := None,
                                         votes := map[id := env.battery]), env)
      ensures outbox == old(outbox)
    {
      hide ResetElectionTimer;
      NominateSelf(env);
      ResetTimer(env);
    }

    method NominateSelf(env: Env)
      modifies `currentTerm, `role, `votedFor, `currentLeader, `votes
      ensures currentTerm == old(currentTerm) + 1 && role == Candidate && votedFor == Some(id)
      ensures currentLeader == None && votes == map[id := env.battery]
    {
      currentTerm := currentTerm + 1;
      role := Candidate;
      votedFor := Some(id);
      currentLeader := None;
      votes := map[id := env.battery];
    }

    method RequestVotes(env: Env)
      modifies `outbox
      ensures outbox == old(outbox) + VoteRequests(State(), env)
    {
      ghost var s, all := State(), VoteRequests(State(), env);
      var lastTerm := if |log| > 0 then log[|log| - 1].term else 0;
      for i := 0 to |peers|
        invariant State() == s
        invariant outbox == old(outbox) + all[..i]
      {
        assert all[i] == Packet(s.id, To(s.peers[i]), VoteRequest(s, env));
        Send(peers[i], RequestVote(currentTerm, id, |log|, lastTerm, env.battery));
        assert all[..i + 1] == all[..i] + [all[i]];
      }
      assert all[..|peers|] == all;
    }

    method HandleRequestVote(sender: NodeId, p: Payload, env: Env)
      requires p.RequestVote?
      modifies `currentTerm, `votedFor, `role, `electionDeadline, `outbox
      ensures After(old(outbox), Handlers.HandleRequestVote(old(State()), sender, p, env))
    {
      hide ResetElectionTimer, Handlers.StepDown, GrantsVote;
      if p.term > currentTerm { StepDown(p.term, env); }
      var grant := MayGrant(p);
      if grant { GrantVote(p.candidate, env); }
      Send(sender, VoteResponse(currentTerm, grant, id, env.battery));
    }

    method MayGrant(p: Payload) returns (grant: bool)
      requires p.RequestVote?
      ensures grant == GrantsVote(State(), p)
    {
      var lastTerm := if |log| > 0 then log[|log| - 1].term else 0;
      var upToDate := if p.lastTerm != lastTerm then p.lastTerm > lastTerm else p.lastIndex >= |log|;
      grant :=
        && p.term == currentTerm
        && role != Observer
        && (protocol == Raft || p.battery >= T_LOW)
        && (votedFor == None || votedFor == Some(p.candidate))
        && upToDate;
    }

    method GrantVote(candidate: NodeId, env: Env)
      modifies `votedFor, `electionDeadline
      ensures After(old(outbox), Out(ResetElectionTimer(old(State()).(votedFor := Some(candidate)), env), []))
    {
      hide ResetElectionTimer;
      votedFor := Some(candidate);
      ResetTimer(env);
    }

    method HandleVoteResponse(sender: NodeId, p: Payload, env: Env)
      requires p.VoteResponse?
      modifies this
      ensures After(old(outbox), Handlers.HandleVoteResponse(old(State()), sender, p, env))
    {
      if p.term > currentTerm {
        StepDown(p.term, env);
        return;
      }
      if role != Candidate || p.term != currentTerm { return; }
      if p.granted { votes := votes[sender := p.battery]; }
      if |votes| > (|peers| + 1) / 2 { BecomeLeader(env); }
    }

    method InitReplicationState()
      modifies `nextIndex, `matchIndex
      ensures nextIndex == SetAll(old(nextIndex), peers, (|log| + 1) as pos)
      ensures matchIndex == SetAll(old(matchIndex), peers, 0)
    {
      for i := 0 to |peers|
        invariant nextIndex == SetAll(old(nextIndex), peers[..i], (|log| + 1) as pos)
        invariant matchIndex == SetAll(old(matchIndex), peers[..i], 0)
      {
        assert peers[..i + 1][..i] == peers[..i];
        nextIndex := nextIndex[peers[i] := |log| + 1];
        matchIndex := matchIndex[peers[i] := 0];
      }
      assert peers[..|peers|] == peers;
    }

    method BecomeLeader(env: Env)
      modifies this
      ensures After(old(outbox), Handlers.BecomeLeader(old(State()), env))
    {
      hide Handlers.AssumeOffice, Heartbeats, SendPing, FlushPending;
      AssumeOffice(env);
      if protocol == Raft { SendHeartbeats(); } else { SendLivenessPing(); }
      FlushPendingTriggers(env);
    }

    method AssumeOffice(env: Env)
      modifies `role, `currentLeader, `nextIndex, `matchIndex, `handoffSent, `pingInterval, `lastConsensusActivity,
        `lastPingTime
      ensures State() == Handlers.AssumeOffice(old(State()), env) && outbox == old(outbox)
    {
      hide SetAll;
      TakeOffice();
      InitReplicationState();
      ResetTermState(env);
    }

    method TakeOffice()
      modifies `role, `currentLeader
      ensures role == Leader && currentLeader == Some(id)
    {
      role := Leader;
      currentLeader := Some(id);
    }

    method ResetTermState(env: Env)
      modifies `handoffSent, `pingInterval, `lastConsensusActivity, `lastPingTime
      ensures !handoffSent && pingInterval == LIVENESS_PING_INTERVAL
      ensures lastConsensusActivity == env.now && lastPingTime == Later(env)
    {
      handoffSent := false;
      pingInterval := LIVENESS_PING_INTERVAL;
      lastConsensusActivity := env.now;
      lastPingTime := Later(env);
    }

    // ------------------------------------------------------- AppendEntries

    method RejectAppend(sender: NodeId, env: Env)
      modifies `outbox
      ensures outbox == old(outbox) + [Rejection(State(), sender, env)]
    {
      Send(sender, AppendResponse(currentTerm, false, id, 0, env.battery, 0));
    }

    method ReplayProvisional(truncated: Log)
      modifies `outbox
      ensures outbox == old(outbox) + Handlers.ReplayProvisional(State(), truncated)
    {
      var commands := [];
      for i := 0 to |truncated|
        invariant outbox == old(outbox)
        invariant commands + Provisional(truncated[i..]) == Provisional(truncated)
      {
        assert truncated[i..][1..] == truncated[i + 1..];
        if truncated[i].epoch != 0 { commands := commands + [truncated[i].command]; }
      }
      assert truncated[|truncated|..] == [];
      assert commands == Provisional(truncated);
      if commands == [] || protocol == Raft { return; }
      if currentLeader == None || currentLeader == Some(id) { return; }
      Send(currentLeader.value, ReconcileBatch(currentTerm, id, commands));
    }

    method StoreEntry(entry: LogEntry)
      modifies `log, `outbox
      ensures After(old(outbox), Store(old(State()), entry))
    {
      if entry.index <= |log| {
        if log[entry.index - 1].term != entry.term {
          var truncated := log[entry.index - 1..];
          log := log[..entry.index - 1];
          log := log + [entry];
          ReplayProvisional(truncated);
        }
      } else {
        log := log + [entry];
      }
    }

    method StoreEntries(entries: Log)
      modifies `log, `outbox
      ensures After(old(outbox), StoreAll(old(State()), entries))
    {
      hide Store;
      ghost var goal := StoreAll(State(), entries);
      for i := 0 to |entries|
        invariant goal.node == StoreAll(State(), entries[i..]).node
        invariant old(outbox) + goal.sent == outbox + StoreAll(State(), entries[i..]).sent
      {
        ghost var s := State();
        ghost var first := Store(s, entries[i]);
        assert entries[i..][0] == entries[i] && entries[i..][1..] == entries[i + 1..];
        assert StoreAll(s, entries[i..]).sent == first.sent + StoreAll(first.node, entries[i + 1..]).sent;
        StoreEntry(entries[i]);
      }
      assert entries[|entries|..] == [];
    }

    method HandleAppendEntries(sender: NodeId, p: Payload, env: Env)
      requires p.AppendEntries?
      modifies this
      ensures After(old(outbox), Handlers.HandleAppendEntries(old(State()), sender, p, env))
    {
      if p.term > currentTerm { StepDown(p.term, env); }
      if p.term < currentTerm {
        RejectAppend(sender, env);
        return;
      }
      AcceptOrReject(sender, p, env);
    }

    method AcceptOrReject(sender: NodeId, p: Payload, env: Env)
      requires p.AppendEntries?
      modifies `electionDeadline, `currentLeader, `role, `log, `commitIndex, `outbox
      ensures After(old(outbox), Handlers.AcceptOrReject(old(State()), sender, p, env))
    {
      hide ResetElectionTimer, Handlers.AcceptEntries, PrevMatches;
      HearLeader(p.leader, env);
      var consistent := IsConsistent(p.prevIndex, p.prevTerm);
      if !consistent {
        RejectAppend(sender, env);
        return;
      }
      AcceptEntries(sender, p, env);
    }

    method HearLeader(leader: NodeId, env: Env)
      modifies `electionDeadline, `currentLeader, `role
      ensures State() == ResetElectionTimer(old(State()), env).(leader := Some(leader),
        role := if old(role) == Candidate then Follower else old(role))
      ensures outbox == old(outbox)
    {
      ResetTimer(env);
      currentLeader := Some(leader);
      if role == Candidate { role := Follower; }
    }

    method IsConsistent(prevIndex: nat, prevTerm: nat) returns (consistent: bool)
      ensures consistent == PrevMatches(log, prevIndex, prevTerm)
    {
      if prevIndex > 0 {
        if prevIndex > |log| { return false; }
        if log[prevIndex - 1].term != prevTerm { return false; }
      }
      return true;
    }

    method AcceptEntries(sender: NodeId, p: Payload, env: Env)
      requires p.AppendEntries?
      modifies `log, `commitIndex, `outbox
      ensures After(old(outbox), Handlers.AcceptEntries(old(State()), sender, p, env))
    {
      hide StoreAll;
      StoreEntries(p.entries);
      if p.leaderCommit > commitIndex {
        commitIndex := if p.leaderCommit <= |log| then p.leaderCommit else |log|;
      }
      Send(sender, AppendResponse(currentTerm, true, id, |log|, env.battery, p.prevIndex + |p.entries|));
    }

    method HandleAppendResponse(sender: NodeId, p: Payload, env: Env)
      requires p.AppendResponse?
      modifies this
      ensures After(old(outbox), Out(Handlers.HandleAppendResponse(old(State()), sender, p, env), []))
    {
      if p.term > currentTerm {
        StepDown(p.term, env);
        return;
      }
      peerBatteries := peerBatteries[sender := p.battery];
      if role != Leader { return; }
      if p.success {
        nextIndex := nextIndex[sender := p.matchIndex + 1];
        matchIndex := matchIndex[sender := p.matchIndex];
        TryAdvanceCommit();
      } else {
        var next: int := (Get(nextIndex, sender, 1) as int) - 1;
        nextIndex := nextIndex[sender := if next >= 1 then next else 1];
      }
    }

    method TryAdvanceCommit()
      modifies `commitIndex
      ensures After(old(outbox), Out(AdvanceCommit(old(State())), []))
    {
      ghost var goal := CommitPoint(State(), |log|);
      var n: nat := |log|;
      while n > commitIndex
        invariant n <= |log| && State() == old(State()) && outbox == old(outbox)
        invariant goal == CommitPoint(State(), n)
      {
        if log[n - 1].term == currentTerm {
          var replicas := 1;
          for i := 0 to |peers|
            invariant replicas == 1 + CountMatches(peers[..i], matchIndex, n)
          {
            assert peers[..i + 1][..i] == peers[..i];
            if Get(matchIndex, peers[i], 0) >= n { replicas := replicas + 1; }
          }
          assert peers[..|peers|] == peers;
          if replicas > (|peers| + 1) / 2 {
            commitIndex := n;
            return;
          }
        }
        n := n - 1;
      }
    }

    // ------------------------------------------------------------- sensors

    method HandleSensorData(p: Payload, env: Env)
      requires p.SensorData?
      modifies `pendingTriggers, `lastSensor, `batchBuffer, `batchDeadline, `lastConsensusActivity, `log, `outbox
      ensures After(old(outbox), HandleSensor(old(State()), p, env))
    {
      hide Replicate, Enqueue, Filtered, SensorKey;
      var command := Reading(p.sensor, p.value, p.leaf);
      if role != Leader && role != LocalLeader {
        if currentLeader != None && currentLeader != Some(id) {
          Send(currentLeader.value, p);
        } else {
          pendingTriggers := pendingTriggers + [(command, Delta)];
        }
        return;
      }
      if protocol == Raft {
        ReplicateEntry(command, Event);
        return;
      }
      var key := p.leaf + ":" + p.sensor;
      var filtered := IsFiltered(p, key);
      if filtered { return; }
      RecordValue(key, p.value);
      if protocol == EchoD { BufferReading(command, env); } else { ReplicateEntry(command, Delta); }
    }

    method IsFiltered(p: Payload, key: string) returns (filtered: bool)
      requires p.SensorData? && key == p.leaf + ":" + p.sensor
      ensures filtered == Filtered(State(), p) && key == SensorKey(p)
    {
      if key in lastSensor {
        var prev := lastSensor[key];
        if Abs(p.value - prev) / Max(Abs(prev), 0.000000001) < DELTA_THRESHOLD { return true; }
      }
      return false;
    }

    method RecordValue(key: string, value: real)
      modifies `lastSensor
      ensures lastSensor == old(lastSensor)[key := value]
    {
      lastSensor := lastSensor[key := value];
    }

    method BufferReading(command: Command, env: Env)
      modifies `batchBuffer, `batchDeadline, `lastConsensusActivity, `log, `outbox
      ensures After(old(outbox), Enqueue(old(State()), command, env))
    {
      hide Handlers.FlushBatch;
      batchBuffer := batchBuffer + [command];
      if batchDeadline == None { batchDeadline := Some(env.now + BATCH_WINDOW); }
      if |batchBuffer| >= MAX_BATCH_SIZE { FlushBatch(env); }
    }

    // ------------------------------------------------------ reconciliation

    method HandleReconcileBatch(p: Payload, env: Env)
      requires p.ReconcileBatch?
      modifies `recentReconciles, `lastConsensusActivity, `log, `outbox
      ensures After(old(outbox), HandleReconcile(old(State()), p, env))
    {
      hide Replicate, ReplicateAll, Screen, Tagged;
      if role != Leader && role != LocalLeader { return; }
      if p.commands == [] { return; }
      var unseen := ScreenCommands(p.commands);
      if unseen == [] { return; }
      lastConsensusActivity := env.now;
      if protocol == EchoD && |unseen| > 1 {
        ReplicateEntry(Batch(unseen, |unseen|), Reconcile);
      } else {
        ReplicateEach(Tagged(unseen, Reconcile));
      }
    }

    method ScreenCommands(commands: seq<Command>) returns (unseen: seq<Command>)
      modifies `recentReconciles
      ensures recentReconciles == Trim(Screen(old(recentReconciles), commands).0)
      ensures unseen == Screen(old(recentReconciles), commands).1
    {
      unseen := [];
      ghost var goal := Screen(recentReconciles, commands);
      for i := 0 to |commands|
        invariant goal.0 == Screen(recentReconciles, commands[i..]).0
        invariant goal.1 == unseen + Screen(recentReconciles, commands[i..]).1
      {
        assert commands[i..] == [commands[i]] + commands[i + 1..];
        if commands[i] !in recentReconciles {
          recentReconciles := recentReconciles + [commands[i]];
          unseen := unseen + [commands[i]];
        }
      }
      assert commands[|commands|..] == [];
      if |recentReconciles| > 200 { recentReconciles := recentReconciles[100..]; }
    }

    // ------------------------------------------------------------- handoff

    /** The first of the candidates sorted by battery, then by name. */
    method ChooseSuccessor() returns (successor: NodeId)
      requires peers != []
      ensures successor == Successor(State(), peers)
    {
      successor := peers[0];
      for i := 1 to |peers|
        invariant successor == Successor(State(), peers[..i])
      {
        assert peers[..i + 1][..i] == peers[..i];
        var best, other := Get(peerBatteries, successor, 100), Get(peerBatteries, peers[i], 100);
        if !(best > other || (best == other && successor <= peers[i])) { successor := peers[i]; }
      }
      assert peers[..|peers|] == peers;
    }

    method InitiateHandoff(env: Env)
      modifies `handoffSent, `role, `electionDeadline, `outbox
      ensures After(old(outbox), Handlers.InitiateHandoff(old(State()), env))
    {
      hide ResetElectionTimer, Successor;
      if peers == [] {
        handoffSent := true;
        return;
      }
      var successor := ChooseSuccessor();
      handoffSent := true;
      if Get(peerBatteries, successor, 100) <= env.battery { return; }
      Send(successor, LeadershipHandoff(currentTerm, id));
      Retire(env);
    }

    method Retire(env: Env)
      modifies `role, `electionDeadline
      ensures State() == ResetElectionTimer(old(State()).(role := Follower), env) && outbox == old(outbox)
    {
      role := Follower;
      ResetTimer(env);
    }

    method HandleLeadershipHandoff(p: Payload, env: Env)
      requires p.LeadershipHandoff?
      modifies this
      ensures After(old(outbox), HandleHandoff(old(State()), p, env))
    {
      if protocol != EchoD || role == Observer { return; }
      if p.term < currentTerm { return; }
      if p.term > currentTerm { StepDown(p.term, env); }
      StartElection(env);
    }

    // ---------------------------------------------------- provisional mode

    method HandlePartitionControl(heal: bool)
      modifies `partitionEpoch, `role
      ensures After(old(outbox), Out(Handlers.HandlePartitionControl(old(State()), heal), []))
    {
      if protocol != Raft {
        if heal { ExitProvisionalMode(); } else { EnterProvisionalMode(); }
      }
    }

    method EnterProvisionalMode()
      modifies `partitionEpoch, `role
      ensures After(old(outbox), Out(EnterProvisional(old(State())), []))
    {
      partitionEpoch := partitionEpoch + 1;
      if role == Leader { role := LocalLeader; }
    }

    method ExitProvisionalMode()
      modifies `partitionEpoch, `role
      ensures After(old(outbox), Out(ExitProvisional(old(State())), []))
    {
      if role == LocalLeader { role := Follower; }
      partitionEpoch := 0;
    }

    // ---------------------------------------------------------------- tick

    method Tick(env: Env)
      modifies this
      ensures After(old(outbox), Handlers.Tick(old(State()), env))
    {
      if role == Observer { return; }
      if role == Leader || role == LocalLeader {
        LeaderTick(env);
      } else if env.now >= electionDeadline {
        StartElection(env);
      }
    }

    method FlushIfDue(env: Env)
      modifies `batchBuffer, `batchDeadline, `lastConsensusActivity, `log, `outbox
      ensures After(old(outbox), Handlers.FlushIfDue(old(State()), env))
    {
      hide Handlers.FlushBatch;
      if batchDeadline != None && env.now >= batchDeadline.value { FlushBatch(env); }
    }

    method PingIfDue(interval: real, env: Env)
      modifies `pingInterval, `lastPingTime, `outbox
      ensures After(old(outbox), Handlers.PingIfDue(old(State()), interval, env))
    {
      hide SendPing, Heartbeats;
      if env.now - lastPingTime >= interval {
        if protocol == Raft { SendHeartbeats(); } else { SendLivenessPing(); }
        lastPingTime := env.now;
      }
    }

    method HandoffIfLow(env: Env)
      modifies `handoffSent, `role, `electionDeadline, `outbox
      ensures After(old(outbox), Handlers.HandoffIfLow(old(State()), env))
    {
      hide Handlers.InitiateHandoff;
      if env.battery < T_HANDOFF && !handoffSent { InitiateHandoff(env); }
    }

    method LeaderTick(env: Env)
      modifies this
      ensures After(old(outbox), Handlers.LeaderTick(old(State()), env))
    {
      hide Handlers.FlushIfDue, Handlers.PingIfDue, Handlers.HandoffIfLow;
      if protocol == Raft {
        PingIfDue(RAFT_HEARTBEAT_INTERVAL, env);
      } else if protocol == Echo {
        PingIfDue(LIVENESS_PING_INTERVAL, env);
      } else {
        BatchingTick(env);
      }
    }

    /** The tick of an echoD leader. */
    method BatchingTick(env: Env)
      requires protocol == EchoD
      modifies this
      ensures After(old(outbox), Handlers.LeaderTick(old(State()), env))
    {
      hide Handlers.FlushIfDue, Handlers.PingIfDue, Handlers.HandoffIfLow;
      FlushIfDue(env);
      PingIfDue(pingInterval, env);
      HandoffIfLow(env);
    }

    // ------------------------------------------------------------ dispatch

    method Dispatch(sender: NodeId, p: Payload, env: Env)
      modifies this
      ensures After(old(outbox), Handlers.Dispatch(old(State()), sender, p, env))
    {
      match p {
        case RequestVote(_, _, _, _, _) => HandleRequestVote(sender, p, env);
        case VoteResponse(_, _, _, _) => HandleVoteResponse(sender, p, env);
        case AppendEntries(_, _, _, _, _, _) => HandleAppendEntries(sender, p, env);
        case AppendResponse(_, _, _, _, _, _) => HandleAppendResponse(sender, p, env);
        case LivenessPing(_, _) => HandleLivenessPing(p, env);
        case SensorData(_, _, _) => HandleSensorData(p, env);
        case LeadershipHandoff(_, _) => HandleLeadershipHandoff(p, env);
        case ReconcileBatch(_, _, _) => HandleReconcileBatch(p, env);
      }
    }
  }
}
