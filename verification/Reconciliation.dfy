/** Reconciliation in the simulator after a partition heals, for ECHO
    (simulation/protocols/echo.py) and for echoD (simulation/protocols/echod.py),
    which overrides only the flush. It runs as sequential code on the losing
    side. */
module Reconciliation {
  import opened Types
  import opened Handlers
  import opened SimulatorLog
  import opened Ledger
  import opened Replication

  /** The losing side's state, as far as reconciliation changes or reads it. */
  datatype Side = Side(protocol: Protocol, role: Role, term: nat, entries: Log, commit: nat, epoch: nat,
                       pending: seq<(Command, Trigger)>)

  function Proposed(s: Side, command: Command, trigger: Trigger): Side {
    s.(entries := s.entries + [LogEntry(|s.entries| + 1, s.term, command, trigger, s.epoch)])
  }

  function ProposedAll(s: Side, proposals: seq<(Command, Trigger)>): Side {
    if proposals == [] then s
    else
      var k := |proposals| - 1;
      Proposed(ProposedAll(s, proposals[..k]), proposals[k].0, proposals[k].1)
  }

  /** ECHO replays one entry per trigger, echoD one batch. */
  function Flushed(s: Side): Side {
    var s1 := s.(pending := []);
    if s.protocol == EchoD && |s.pending| > 1 then
      Proposed(s1, Batch(Commands(s.pending), |s.pending|), s.pending[0].1)
    else ProposedAll(s1, s.pending)
  }

  function Exited(s: Side): Side {
    s.(epoch := 0, role := if s.role == LocalLeader then Follower else s.role)
  }

  function Entered(s: Side): Side {
    s.(epoch := s.epoch + 1, role := if s.role == Leader then LocalLeader else s.role)
  }

  /** The provisional entries of a log, as triggers to replay. */
  function ProvisionalOf(entries: Log): seq<(Command, Trigger)> {
    if entries == [] then []
    else
      var k := |entries| - 1;
      ProvisionalOf(entries[..k])
      + (if entries[k].epoch > 0 then [(entries[k].command, entries[k].trigger)] else [])
  }

  /** The log and commit index once the winner's entries have been adopted. */
  function Adopted(s: Side, other: Log, otherCommit: nat): Side {
    if otherCommit > s.commit then
      var merged := Truncated(s.entries, s.commit + 1) + other;
      s.(entries := merged, commit := CommitTo(merged, s.commit, otherCommit))
    else s
  }

  function Reconciled(s: Side, other: Log, otherCommit: nat): Side {
    var s1 := Exited(Adopted(s, other, otherCommit));
    Flushed(s1.(pending := s.pending + ProvisionalOf(s.entries)))
  }

  // ---------------------------------------------------------------- the code

  class Coordinator {
    const protocol: Protocol
    const log: ReplicatedLog
    var role: Role
    var currentTerm: nat
    var partitionEpoch: nat
    var pendingTriggers: seq<(Command, Trigger)>

    constructor (protocol: Protocol)
      ensures fresh(log) && State() == Side(protocol, Follower, 0, [], 0, 0, [])
    {
      this.protocol := protocol;
      log := new ReplicatedLog();
      role, currentTerm, partitionEpoch, pendingTriggers := Follower, 0, 0, [];
    }

    function State(): Side
      reads this, log
    {
      Side(protocol, role, currentTerm, log.entries, log.commitIndex, partitionEpoch, pendingTriggers)
    }

    method ReplicateEntry(command: Command, trigger: Trigger)
      modifies log`entries
      ensures State() == Proposed(old(State()), command, trigger)
    {
      log.Append(LogEntry(log.LastIndex() + 1, currentTerm, command, trigger, partitionEpoch));
    }

    method FlushPendingTriggers()
      modifies this`pendingTriggers, log`entries
      ensures State() == Flushed(old(State()))
    {
      ghost var start := State().(pending := []);
      var pending := pendingTriggers;
      pendingTriggers := [];
      if protocol == EchoD && |pending| > 1 {
        var commands: seq<Command> := [];
        for i := 0 to |pending|
          invariant commands == Commands(pending[..i])
        {
          assert pending[..i + 1] == pending[..i] + [pending[i]];
          commands := commands + [pending[i].0];
        }
        assert pending[..|pending|] == pending;
        ReplicateEntry(Batch(commands, |pending|), pending[0].1);
      } else {
        for i := 0 to |pending|
          invariant State() == ProposedAll(start, pending[..i])
        {
          ReplicateEntry(pending[i].0, pending[i].1);
          assert pending[..i + 1][..i] == pending[..i];
        }
        assert pending[..|pending|] == pending;
      }
    }

    method EnterProvisionalMode()
      modifies this`partitionEpoch, this`role
      ensures State() == Entered(old(State()))
    {
      partitionEpoch := partitionEpoch + 1;
      if role == Leader { role := LocalLeader; }
    }

    method ExitProvisionalMode()
      modifies this`partitionEpoch, this`role
      ensures State() == Exited(old(State()))
    {
      if role == LocalLeader { role := Follower; }
      partitionEpoch := 0;
    }

    method Provisional() returns (provisional: seq<(Command, Trigger)>)
      ensures provisional == ProvisionalOf(log.entries)
    {
      provisional := [];
      var all := log.EntriesFrom(1);
      for i := 0 to |all|
        invariant provisional == ProvisionalOf(all[..i])
      {
        assert all[..i + 1][..i] == all[..i];
        if all[i].epoch > 0 { provisional := provisional + [(all[i].command, all[i].trigger)]; }
      }
      assert all[..|all|] == all;
    }

    method Adopt(otherEntries: Log, otherCommit: nat)
      modifies log
      ensures State() == Adopted(old(State()), otherEntries, otherCommit)
    {
      if otherCommit > log.commitIndex {
        log.TruncateFrom(log.commitIndex + 1);
        ghost var kept := log.entries;
        for i := 0 to |otherEntries|
          invariant log.entries == kept + otherEntries[..i]
          invariant log.commitIndex == old(log.commitIndex)
        {
          log.Append(otherEntries[i]);
          assert otherEntries[..i + 1] == otherEntries[..i] + [otherEntries[i]];
        }
        assert otherEntries[..|otherEntries|] == otherEntries;
        var applied := log.Commit(otherCommit);
      }
    }

    method Requeue(provisional: seq<(Command, Trigger)>)
      modifies this`pendingTriggers
      ensures pendingTriggers == old(pendingTriggers) + provisional
    {
      for i := 0 to |provisional|
        invariant pendingTriggers == old(pendingTriggers) + provisional[..i]
      {
        pendingTriggers := pendingTriggers + [provisional[i]];
        assert provisional[..i + 1] == provisional[..i] + [provisional[i]];
      }
      assert provisional[..|provisional|] == provisional;
    }

    /** The source writes this as one method; its three loops are the methods
        above. */
    method Reconcile(otherEntries: Log, otherCommit: nat)
      modifies this, log
      ensures State() == Reconciled(old(State()), otherEntries, otherCommit)
    {
      hide Adopted, Flushed, ProvisionalOf;
      var provisional := Provisional();
      Adopt(otherEntries, otherCommit);
      ExitProvisionalMode();
      Requeue(provisional);
      FlushPendingTriggers();
    }
  }

  // ------------------------------------------------------- what it preserves

  /** Entries that continue a log of length n. */
  ghost predicate Continues(log: Log, n: nat) {
    forall i :: 0 <= i < |log| ==> log[i].index == n + i + 1
  }

  /** Entries replayed by s: new, global and of its term. */
  ghost predicate Replays(s: Side, replays: Log, n: nat) {
    Continues(replays, n) && forall i :: 0 <= i < |replays| ==> replays[i].epoch == s.epoch && replays[i].term == s.term
  }

  lemma {:induction false} ProposedAllEntries(s: Side, proposals: seq<(Command, Trigger)>) returns (replays: Log)
    ensures ProposedAll(s, proposals) == s.(entries := s.entries + replays)
    ensures Replays(s, replays, |s.entries|) && Recorded(replays) == Commands(proposals)
    decreases |proposals|
  {
    if proposals == [] {
      replays := [];
    } else {
      var k := |proposals| - 1;
      replays := ProposedAllEntries(s, proposals[..k]);
      var e := LogEntry(|s.entries| + k + 1, s.term, proposals[k].0, proposals[k].1, s.epoch);
      assert |Recorded(replays)| == k;
      assert Commands(proposals) == Commands(proposals[..k]) + [proposals[k].0];
      assert Recorded(replays + [e]) == Recorded(replays) + [e.command];
      replays := replays + [e];
    }
  }

  /** A flush appends new entries that mean the pending commands, in order: one
      for each in ECHO, at most one in echoD. */
  lemma FlushedEntries(s: Side) returns (replays: Log)
    requires s.protocol in {Echo, EchoD}
    ensures Flushed(s) == s.(pending := [], entries := s.entries + replays)
    ensures Replays(s, replays, |s.entries|)
    ensures FlatAll(Recorded(replays)) == FlatAll(Commands(s.pending))
    ensures Recorded(replays) ==
      if s.protocol == EchoD && |s.pending| > 1 then [Batch(Commands(s.pending), |s.pending|)] else Commands(s.pending)
  {
    if s.protocol == EchoD && |s.pending| > 1 {
      var whole := Batch(Commands(s.pending), |s.pending|);
      replays := [LogEntry(|s.entries| + 1, s.term, whole, s.pending[0].1, s.epoch)];
      assert Recorded(replays) == [whole];
      FlatOne(whole);
    } else {
      replays := ProposedAllEntries(s.(pending := []), s.pending);
      assert |Recorded(replays)| == |Commands(s.pending)|;
    }
  }

  lemma SameNumber(entries: Log)
    ensures |Recorded(entries)| == |entries|
  {
  }

  function Merged(s: Side, other: Log, otherCommit: nat): Log {
    if otherCommit > s.commit then Truncated(s.entries, s.commit + 1) + other else s.entries
  }

  /** What reconciliation leaves: the merged log, then replays with epoch 0 that
      mean what was pending and every provisional command, in order. */
  lemma ReconciledEntries(s: Side, other: Log, otherCommit: nat) returns (replays: Log)
    requires s.protocol in {Echo, EchoD}
    ensures var s', merged := Reconciled(s, other, otherCommit), Merged(s, other, otherCommit);
      && s'.entries == merged + replays && s'.pending == [] && s'.epoch == 0 && s'.term == s.term
      && s'.commit == CommitTo(merged, s.commit, otherCommit)
      && Continues(replays, |merged|)
      && (forall i :: 0 <= i < |replays| ==> replays[i].epoch == 0 && replays[i].term == s.term)
      && var replayed := Commands(s.pending) + Commands(ProvisionalOf(s.entries));
      && FlatAll(Recorded(replays)) == FlatAll(replayed)
      && (if s.protocol == Echo then Recorded(replays) == replayed else |replays| == (if replayed == [] then 0 else 1))
  {
    hide Flushed, FlatAll, ProvisionalOf, Recorded;
    var provisional := ProvisionalOf(s.entries);
    var s1 := Exited(Adopted(s, other, otherCommit)).(pending := s.pending + provisional);
    replays := FlushedEntries(s1);
    SameNumber(replays);
    assert Commands(s.pending + provisional) == Commands(s.pending) + Commands(provisional);
  }

  /** Reconciliation preserves meaning. When the winner's commit is higher, its
      entries start right after the loser's commit index and nothing was
      pending, the result is the old committed prefix, the winner's entries and
      the replays: correctly indexed, with the committed prefix untouched, and
      the replays mean all provisional commands in order. ECHO and echoD agree
      once flattened, with one entry per command against at most one. */
  lemma ReconcilePreservesMeaning(s: Side, other: Log, otherCommit: nat)
    requires s.pending == [] && s.commit <= |s.entries| && Indexed(s.entries)
    requires otherCommit > s.commit && Continues(other, s.commit)
    ensures var provisional := Commands(ProvisionalOf(s.entries));
      var e := Reconciled(s.(protocol := Echo), other, otherCommit).entries;
      var d := Reconciled(s.(protocol := EchoD), other, otherCommit).entries;
      var k := s.commit + |other|;
      && k <= |e| && k <= |d|
      && e[..k] == d[..k] == s.entries[..s.commit] + other
      && Indexed(e) && Indexed(d)
      && Recorded(e[k..]) == provisional && FlatAll(Recorded(d[k..])) == FlatAll(provisional)
      && (forall i :: k <= i < |e| ==> e[i].epoch == 0) && (forall i :: k <= i < |d| ==> d[i].epoch == 0)
      && FlatAll(Recorded(e)) == FlatAll(Recorded(d))
      && |d| - k == (if provisional == [] then 0 else 1) <= |e| - k == |provisional|
  {
    hide FlatAll, ProvisionalOf, Reconciled;
    var merged := s.entries[..s.commit] + other;
    var re := ReconciledEntries(s.(protocol := Echo), other, otherCommit);
    var rd := ReconciledEntries(s.(protocol := EchoD), other, otherCommit);
    NothingPending(s, ProvisionalOf(s.entries));
    assert (merged + re)[|merged|..] == re && (merged + rd)[|merged|..] == rd;
    assert |Recorded(re)| == |re|;
    SameMeaning(merged, re, rd);
  }

  lemma NothingPending(s: Side, provisional: seq<(Command, Trigger)>)
    requires s.pending == []
    ensures Commands(s.pending) + Commands(provisional) == Commands(provisional)
  {
  }

  lemma SameMeaning(base: Log, a: Log, b: Log)
    requires FlatAll(Recorded(a)) == FlatAll(Recorded(b))
    ensures FlatAll(Recorded(base + a)) == FlatAll(Recorded(base + b))
  {
    assert Recorded(base + a) == Recorded(base) + Recorded(a);
    assert Recorded(base + b) == Recorded(base) + Recorded(b);
    FlatConcat(Recorded(base), Recorded(a));
    FlatConcat(Recorded(base), Recorded(b));
  }

  lemma {:induction false} ProposedAllMarked(s: Side, proposals: seq<(Command, Trigger)>)
    ensures ProposedAll(s, proposals) == s.(entries := ProposedAll(s, proposals).entries)
    ensures ProvisionalOf(ProposedAll(s, proposals).entries) ==
      ProvisionalOf(s.entries) + (if s.epoch > 0 then proposals else [])
    decreases |proposals|
  {
    if proposals == [] {
      assert s == s.(entries := s.entries);
    } else {
      var k := |proposals| - 1;
      ProposedAllMarked(s, proposals[..k]);
      ProposedMarked(ProposedAll(s, proposals[..k]), proposals[k].0, proposals[k].1);
      Regroup(ProvisionalOf(s.entries), proposals, s.epoch > 0);
    }
  }

  lemma Regroup(before: seq<(Command, Trigger)>, proposals: seq<(Command, Trigger)>, marked: bool)
    requires proposals != []
    ensures var k := |proposals| - 1;
      before + (if marked then proposals[..k] else []) + (if marked then [proposals[k]] else [])
      == before + (if marked then proposals else [])
  {
    assert proposals == proposals[..|proposals| - 1] + [proposals[|proposals| - 1]];
  }

  lemma ProposedMarked(s: Side, command: Command, trigger: Trigger)
    ensures Proposed(s, command, trigger) == s.(entries := Proposed(s, command, trigger).entries)
    ensures ProvisionalOf(Proposed(s, command, trigger).entries) ==
      ProvisionalOf(s.entries) + (if s.epoch > 0 then [(command, trigger)] else [])
  {
    assert Proposed(s, command, trigger).entries[..|s.entries|] == s.entries;
  }

  /** A partition and its heal: what a side proposes in between is exactly what is
      provisional afterwards, nothing it proposes after the heal is, and of its
      roles only an office is lost. */
  lemma PartitionMarks(s: Side, during: seq<(Command, Trigger)>, later: seq<(Command, Trigger)>)
    ensures var cut := ProposedAll(Entered(s), during);
      var healed := Exited(cut);
      && ProvisionalOf(cut.entries) == ProvisionalOf(s.entries) + during
      && ProvisionalOf(ProposedAll(healed, later).entries) == ProvisionalOf(cut.entries)
      && cut.role == (if s.role == Leader then LocalLeader else s.role) && cut.epoch > s.epoch
      && healed == s.(entries := cut.entries, epoch := 0, role := if Leads(s.role) then Follower else s.role)
  {
    ProposedAllMarked(Entered(s), during);
    ProposedAllMarked(Exited(ProposedAll(Entered(s), during)), later);
  }

  /** Reconciliation leaves no LOCAL_LEADER. */
  lemma ReconciledRole(s: Side, other: Log, otherCommit: nat)
    ensures Reconciled(s, other, otherCommit).role == (if s.role == LocalLeader then Follower else s.role)
  {
    hide Adopted, ProvisionalOf;
    var s1 := Exited(Adopted(s, other, otherCommit)).(pending := s.pending + ProvisionalOf(s.entries));
    AdoptedRole(s, other, otherCommit);
    ProposedAllMarked(s1.(pending := []), s1.pending);
  }

  lemma AdoptedRole(s: Side, other: Log, otherCommit: nat)
    ensures Adopted(s, other, otherCommit).role == s.role
  {
  }

  // -------------------------------------------------- what it does not keep

  /** The entries of a log that carry no epoch. */
  function Global(entries: Log): Log {
    if entries == [] then []
    else
      var k := |entries| - 1;
      Global(entries[..k]) + (if entries[k].epoch > 0 then [] else [entries[k]])
  }

  lemma {:induction false} Split(entries: Log)
    ensures Bag(Recorded(entries)) == Bag(Commands(ProvisionalOf(entries))) + Bag(Recorded(Global(entries)))
  {
    if entries == [] {
      NothingCreated();
    } else {
      hide Bag;
      var k := |entries| - 1;
      Split(entries[..k]);
      assert entries == entries[..k] + [entries[k]];
      SplitLast(entries[..k], entries[k]);
    }
  }

  lemma SplitLast(front: Log, e: LogEntry)
    requires Bag(Recorded(front)) == Bag(Commands(ProvisionalOf(front))) + Bag(Recorded(Global(front)))
    ensures Bag(Recorded(front + [e])) == Bag(Commands(ProvisionalOf(front + [e]))) + Bag(Recorded(Global(front + [e])))
  {
    hide Bag;
    var one, entries := [e.command], front + [e];
    assert entries[..|front|] == front;
    assert Recorded(entries) == Recorded(front) + one;
    BagConcat(Recorded(front), one);
    if e.epoch > 0 {
      assert Commands(ProvisionalOf(entries)) == Commands(ProvisionalOf(front)) + one;
      BagConcat(Commands(ProvisionalOf(front)), one);
      assert Global(entries) == Global(front);
    } else {
      assert Recorded(Global(entries)) == Recorded(Global(front)) + one;
      BagConcat(Recorded(Global(front)), one);
      assert ProvisionalOf(entries) == ProvisionalOf(front);
    }
  }

  lemma {:induction false} ProvisionalConcat(a: Log, b: Log)
    ensures ProvisionalOf(a + b) == ProvisionalOf(a) + ProvisionalOf(b)
    decreases |b|
  {
    if b == [] {
      assert a + b == a;
    } else {
      var k := |b| - 1;
      assert (a + b)[..|a| + k] == a + b[..k];
      ProvisionalConcat(a, b[..k]);
    }
  }

  /** The balance of reconciliation: on top of the loser's and the winner's
      commands the result holds a second copy of each provisional command that
      was already committed, and it lacks the loser's uncommitted commands that
      were not provisional. */
  lemma ReconcileBalance(s: Side, other: Log, otherCommit: nat)
    requires s.protocol in {Echo, EchoD} && s.pending == [] && s.commit <= |s.entries| && otherCommit > s.commit
    ensures var kept, cut := s.entries[..s.commit], s.entries[s.commit..];
      Bag(Recorded(Reconciled(s, other, otherCommit).entries)) + Bag(Recorded(Global(cut)))
      == Bag(Recorded(s.entries)) + Bag(Recorded(other)) + Bag(Commands(ProvisionalOf(kept)))
  {
    hide FlatAll, Reconciled, ProvisionalOf, Global, Recorded, Bag;
    var kept, cut := s.entries[..s.commit], s.entries[s.commit..];
    var replays := ReconciledEntries(s, other, otherCommit);
    assert s.entries == kept + cut && Merged(s, other, otherCommit) == kept + other;
    NothingPending(s, ProvisionalOf(s.entries));
    Balance(kept, cut, other, replays);
  }

  lemma Balance(kept: Log, cut: Log, other: Log, replays: Log)
    requires FlatAll(Recorded(replays)) == FlatAll(Commands(ProvisionalOf(kept + cut)))
    ensures Bag(Recorded(kept + other + replays)) + Bag(Recorded(Global(cut)))
      == Bag(Recorded(kept + cut)) + Bag(Recorded(other)) + Bag(Commands(ProvisionalOf(kept)))
  {
    hide FlatAll, ProvisionalOf, Global;
    ProvisionalConcat(kept, cut);
    var pk, pc := Commands(ProvisionalOf(kept)), Commands(ProvisionalOf(cut));
    assert Commands(ProvisionalOf(kept + cut)) == pk + pc;
    Split(cut);
    assert Recorded(kept + other + replays) == Recorded(kept) + Recorded(other) + Recorded(replays);
    assert Recorded(kept + cut) == Recorded(kept) + Recorded(cut);
    Sums(Recorded(kept), Recorded(other), Recorded(replays), Recorded(cut), pk, pc, Recorded(Global(cut)));
  }

  lemma Sums(kept: seq<Command>, other: seq<Command>, replays: seq<Command>, cut: seq<Command>,
             pk: seq<Command>, pc: seq<Command>, dropped: seq<Command>)
    requires FlatAll(replays) == FlatAll(pk + pc) && Bag(cut) == Bag(pc) + Bag(dropped)
    ensures Bag(kept + other + replays) + Bag(dropped) == Bag(kept + cut) + Bag(other) + Bag(pk)
  {
    BagConcat(kept, other);
    BagConcat(kept + other, replays);
    BagConcat(pk, pc);
    BagConcat(kept, cut);
    assert Bag(replays) == Bag(pk) + Bag(pc);
  }

  /** When the winner's commit is no higher nothing is cut, and yet every
      provisional command is replayed: the result holds each twice. */
  lemma ReconcileDoubles(s: Side, other: Log, otherCommit: nat)
    requires s.protocol in {Echo, EchoD} && s.pending == [] && otherCommit <= s.commit
    ensures Bag(Recorded(Reconciled(s, other, otherCommit).entries))
      == Bag(Recorded(s.entries)) + Bag(Commands(ProvisionalOf(s.entries)))
  {
    hide FlatAll, Reconciled, ProvisionalOf, Recorded, Commands;
    var replays := ReconciledEntries(s, other, otherCommit);
    NothingPending(s, ProvisionalOf(s.entries));
    BagAppended(s.entries, replays);
    assert Bag(Recorded(replays)) == Bag(Commands(ProvisionalOf(s.entries)));
  }

  lemma BagAppended(a: Log, b: Log)
    ensures Bag(Recorded(a + b)) == Bag(Recorded(a)) + Bag(Recorded(b))
  {
    assert Recorded(a + b) == Recorded(a) + Recorded(b);
    BagConcat(Recorded(a), Recorded(b));
  }

  /** When reconciliation neither loses nor doubles commands on balance: with a
      higher commit on the winning side, exactly when what is cut and not
      provisional equals what is committed and provisional; otherwise, exactly
      when no entry is provisional (or only empty batches are). */
  lemma ReconcileExact(s: Side, other: Log, otherCommit: nat)
    requires s.protocol in {Echo, EchoD} && s.pending == [] && s.commit <= |s.entries|
    ensures var result := Bag(Recorded(Reconciled(s, other, otherCommit).entries));
      if otherCommit > s.commit then
        result == Bag(Recorded(s.entries)) + Bag(Recorded(other)) <==>
        Bag(Recorded(Global(s.entries[s.commit..]))) == Bag(Commands(ProvisionalOf(s.entries[..s.commit])))
      else
        result == Bag(Recorded(s.entries)) <==> FlatAll(Commands(ProvisionalOf(s.entries))) == []
  {
    hide FlatAll, Reconciled, ProvisionalOf, Global, Recorded, Commands;
    var result := Bag(Recorded(Reconciled(s, other, otherCommit).entries));
    if otherCommit > s.commit {
      ReconcileBalance(s, other, otherCommit);
      Cancels(result, Bag(Recorded(Global(s.entries[s.commit..]))), Bag(Recorded(s.entries)) + Bag(Recorded(other)),
        Bag(Commands(ProvisionalOf(s.entries[..s.commit]))));
    } else {
      ReconcileDoubles(s, other, otherCommit);
      Cancels(result, multiset{}, Bag(Recorded(s.entries)), Bag(Commands(ProvisionalOf(s.entries))));
      EmptyBag(Commands(ProvisionalOf(s.entries)));
    }
  }

  lemma Cancels(result: multiset<Command>, lost: multiset<Command>, expected: multiset<Command>,
                doubled: multiset<Command>)
    requires result + lost == expected + doubled
    ensures result == expected <==> lost == doubled
  {
    assert forall c :: result[c] + lost[c] == (result + lost)[c] == expected[c] + doubled[c];
  }

  lemma EmptyBag(commands: seq<Command>)
    ensures Bag(commands) == multiset{} <==> FlatAll(commands) == []
  {
    hide FlatAll;
    if FlatAll(commands) != [] { assert FlatAll(commands)[0] in Bag(commands); }
  }

  function Sample(index: pos, epoch: nat): LogEntry {
    LogEntry(index, 1, Reading("temperature", 20.0 + index as real, "leaf-0"), Delta, epoch)
  }

  /** An input that loses a command: an uncommitted entry that is not provisional
      is cut and not replayed. */
  lemma ReconcileLoses() returns (s: Side, other: Log, otherCommit: nat, lost: Command)
    ensures s.protocol == Echo && s.pending == [] && s.commit <= |s.entries| && otherCommit > s.commit
    ensures Indexed(s.entries) && Continues(other, s.commit)
    ensures lost in Recorded(s.entries) && lost !in Recorded(Reconciled(s, other, otherCommit).entries)
  {
    s, other, otherCommit := Side(Echo, Follower, 1, [Sample(1, 0)], 0, 0, []), [], 1;
    lost := Sample(1, 0).command;
    assert Recorded(s.entries)[0] == lost;
    assert s.entries[..0] == [] && ProvisionalOf(s.entries) == [];
    assert Reconciled(s, other, otherCommit).entries == [];
  }

  /** An input that doubles a command: a committed provisional entry is kept and
      replayed. */
  lemma ReconcileRepeats() returns (s: Side, other: Log, otherCommit: nat)
    ensures s.protocol == Echo && s.pending == [] && s.commit <= |s.entries| && otherCommit > s.commit
    ensures Indexed(s.entries) && Continues(other, s.commit)
    ensures var r := Reconciled(s, other, otherCommit).entries;
      |s.entries| == 1 && |r| == 3 && r[0].command == r[2].command == s.entries[0].command != r[1].command
  {
    s, other, otherCommit := Side(Echo, Follower, 1, [Sample(1, 1)], 1, 1, []), [Sample(2, 0)], 2;
    OneReplay(s, other, otherCommit);
  }

  /** And one without a higher commit on the winning side, where nothing is cut. */
  lemma ReconcileRepeatsAlways() returns (s: Side, other: Log, otherCommit: nat)
    ensures s.protocol == Echo && s.pending == [] && s.commit <= |s.entries| && otherCommit <= s.commit
    ensures Indexed(s.entries)
    ensures var r := Reconciled(s, other, otherCommit).entries;
      |s.entries| == 1 && |r| == 2 && r[0].command == r[1].command == s.entries[0].command
  {
    s, other, otherCommit := Side(Echo, Follower, 1, [Sample(1, 1)], 0, 1, []), [], 0;
    OneReplay(s, other, otherCommit);
  }

  lemma OneReplay(s: Side, other: Log, otherCommit: nat)
    requires s.protocol == Echo && s.pending == [] && |s.entries| == 1 && s.entries[0].epoch > 0
    ensures var r, merged := Reconciled(s, other, otherCommit).entries, Merged(s, other, otherCommit);
      |r| == |merged| + 1 && r[..|merged|] == merged && r[|merged|].command == s.entries[0].command
  {
    hide Reconciled, Merged;
    var replays := ReconciledEntries(s, other, otherCommit);
    assert s.entries[..0] == [];
    assert ProvisionalOf(s.entries) == [(s.entries[0].command, s.entries[0].trigger)];
    assert Commands(s.pending) + Commands(ProvisionalOf(s.entries)) == [s.entries[0].command];
    assert |Recorded(replays)| == |replays| && Recorded(replays)[0] == replays[0].command;
  }

  // ------------------------------------------------------ the winning side

  /** The reconciled committed prefix is exactly the committed prefix of the
      winning side, if and only if the two sides agreed on what the loser had
      committed. Whatever the loser receives beyond the winner's commit index
      stays uncommitted. */
  lemma AdoptsWinnersPrefix(s: Side, winner: Log, otherCommit: nat, k: nat)
    requires s.protocol in {Echo, EchoD} && s.commit <= |s.entries| && s.commit < otherCommit <= k <= |winner|
    ensures var s' := Reconciled(s, winner[s.commit..k], otherCommit);
      && s'.commit == otherCommit <= |s'.entries|
      && (s'.entries[..s'.commit] == winner[..otherCommit] <==> s.entries[..s.commit] == winner[..s.commit])
  {
    hide Reconciled, ProvisionalOf, FlatAll;
    var replays := ReconciledEntries(s, winner[s.commit..k], otherCommit);
    var kept, tail := s.entries[..s.commit], winner[s.commit..otherCommit];
    var s' := Reconciled(s, winner[s.commit..k], otherCommit);
    assert s'.entries[..otherCommit] == kept + tail;
    assert winner[..otherCommit] == winner[..s.commit] + tail;
    if s'.entries[..otherCommit] == winner[..otherCommit] {
      assert kept == (kept + tail)[..s.commit] == winner[..otherCommit][..s.commit] == winner[..s.commit];
    }
  }
}
