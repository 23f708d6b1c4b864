/** The in-memory log of the simulator (simulation/core/log.py). Positions are
    1-based. */
module SimulatorLog {
  import opened Types
  import opened Handlers

  /** The commit index after `Commit(n)`, and what the call returns. */
  function CommitTo(entries: Log, commit: nat, n: nat): nat {
    if n <= commit then commit else if n <= |entries| then n else |entries|
  }

  function Applied(entries: Log, commit: nat, n: nat): Log {
    if n <= commit || |entries| < commit then [] else entries[commit..CommitTo(entries, commit, n)]
  }

  function Truncated(entries: Log, index: int): Log {
    if 1 <= index <= |entries| then entries[..index - 1] else entries
  }

  lemma AppliedNow(entries: Log, commit: nat, n: nat)
    requires commit <= |entries|
    ensures commit <= CommitTo(entries, commit, n) <= |entries|
    ensures entries[..commit] + Applied(entries, commit, n) == entries[..CommitTo(entries, commit, n)]
  {
  }

  /** A call on the log. */
  datatype Call =
    | Appending(entry: LogEntry)
    | Truncating(index: int)
    | Committing(n: nat)

  /** The log, its commit index and all that its commit calls have returned. */
  datatype History = History(entries: Log, commit: nat, applied: Log)

  function After(h: History, c: Call): History {
    match c
    case Appending(e) => h.(entries := h.entries + [e])
    case Truncating(index) => h.(entries := Truncated(h.entries, index))
    case Committing(n) =>
      History(h.entries, CommitTo(h.entries, h.commit, n), h.applied + Applied(h.entries, h.commit, n))
  }

  function Calls(calls: seq<Call>): History {
    if calls == [] then History([], 0, []) else After(Calls(calls[..|calls| - 1]), calls[|calls| - 1])
  }

  /** No call truncates what is committed. */
  predicate SparesCommitted(calls: seq<Call>) {
    calls != [] ==>
      var last := calls[|calls| - 1];
      && SparesCommitted(calls[..|calls| - 1])
      && (last.Truncating? && last.index >= 1 ==> last.index > Calls(calls[..|calls| - 1]).commit)
  }

  /** Over any calls that spare what is committed, the commit calls hand the state
      machine each committed entry once, in order. */
  lemma {:induction false} AppliedOnce(calls: seq<Call>)
    requires SparesCommitted(calls)
    ensures var h := Calls(calls); h.commit <= |h.entries| && h.applied == h.entries[..h.commit]
    decreases |calls|
  {
    if calls != [] {
      var front, last := calls[..|calls| - 1], calls[|calls| - 1];
      AppliedOnce(front);
      var h := Calls(front);
      if last.Committing? { AppliedNow(h.entries, h.commit, last.n); }
      assert After(h, last).entries[..h.commit] == h.entries[..h.commit];
    }
  }

  /** What a commit call asks for, within the log it finds. */
  function Reach(calls: seq<Call>, i: nat): nat
    requires i < |calls| && calls[i].Committing?
  {
    var entries := Calls(calls[..i]).entries;
    if calls[i].n <= |entries| then calls[i].n else |entries|
  }

  /** Over any calls that spare what is committed, the commit index is the furthest
      that any commit call reached, and 0 if there was none. */
  lemma {:induction false} CommitIsFurthest(calls: seq<Call>)
    requires SparesCommitted(calls)
    ensures forall i: nat :: i < |calls| && calls[i].Committing? ==> Reach(calls, i) <= Calls(calls).commit
    ensures Calls(calls).commit == 0
      || exists i: nat :: i < |calls| && calls[i].Committing? && Calls(calls).commit == Reach(calls, i)
    decreases |calls|
  {
    if calls != [] {
      var k := |calls| - 1;
      CommitIsFurthest(calls[..k]);
      AppliedOnce(calls[..k]);
      forall i: nat | i < k && calls[i].Committing? ensures Reach(calls, i) == Reach(calls[..k], i) {
        assert calls[..k][..i] == calls[..i];
      }
    }
  }

  /** One round of the simulator's storing loop
      (simulation/core/coordinator.py:248-253). */
  function StoredOne(entries: Log, e: LogEntry): Log {
    var cut := if e.index <= |entries| && entries[e.index - 1].term != e.term then Truncated(entries, e.index)
      else entries;
    if |cut| < e.index then cut + [e] else cut
  }

  function Stored(entries: Log, sent: Log): Log
    decreases |sent|
  {
    if sent == [] then entries else Stored(StoredOne(entries, sent[0]), sent[1..])
  }

  /** The simulator's loop and the deployed coordinator's, which truncates and
      appends in one place, leave the same log. */
  lemma {:induction false} StoresAlike(s: Node, sent: Log)
    ensures Stored(s.log, sent) == StoreAll(s, sent).node.log
    decreases |sent|
  {
    if sent != [] {
      StoresAlike(Store(s, sent[0]).node, sent[1..]);
      assert Store(s, sent[0]).node.log == StoredOne(s.log, sent[0]);
    }
  }

  class ReplicatedLog {
    var entries: Log
    var commitIndex: nat

    constructor ()
      ensures entries == [] && commitIndex == 0
    {
      entries, commitIndex := [], 0;
    }

    function LastIndex(): nat
      reads this
    {
      |entries|
    }

    function Get(index: int): (r: Option<LogEntry>)
      reads this
      ensures r.Some? <==> 1 <= index <= |entries|
      ensures r.Some? ==> r.value == entries[index - 1]
    {
      if 1 <= index <= |entries| then Some(entries[index - 1]) else None
    }

    function TermAt(index: int): nat
      reads this
    {
      if Get(index).Some? then Get(index).value.term else 0
    }

    function EntriesFrom(start: int): (r: Log)
      reads this
      ensures start <= 1 ==> r == entries
      ensures start > |entries| && start > 1 ==> r == []
      ensures 1 <= start <= |entries| ==> entries[..start - 1] + r == entries
    {
      if start <= 1 then entries else if start - 1 <= |entries| then entries[start - 1..] else []
    }

    method Append(entry: LogEntry)
      modifies `entries
      ensures entries == old(entries) + [entry]
    {
      entries := entries + [entry];
    }

    method TruncateFrom(index: int)
      modifies `entries
      ensures entries == Truncated(old(entries), index)
    {
      if index >= 1 {
        entries := if index - 1 <= |entries| then entries[..index - 1] else entries;
      }
    }

    method Commit(n: nat) returns (applied: Log)
      modifies `commitIndex
      ensures commitIndex == CommitTo(entries, old(commitIndex), n)
      ensures applied == Applied(entries, old(commitIndex), n)
    {
      if n <= commitIndex { return []; }
      var before := commitIndex;
      commitIndex := if n <= |entries| then n else |entries|;
      applied := if before <= commitIndex then entries[before..commitIndex] else [];
    }

    /** The storing loop of `handle_append_entries`. */
    method Store(sent: Log)
      modifies `entries
      ensures entries == Stored(old(entries), sent)
    {
      for i := 0 to |sent|
        invariant Stored(entries, sent[i..]) == Stored(old(entries), sent)
      {
        var e := sent[i];
        ghost var before := entries;
        assert sent[i..][0] == e && sent[i..][1..] == sent[i + 1..];
        var existing := Get(e.index);
        if existing.Some? && existing.value.term != e.term {
          TruncateFrom(e.index);
        }
        if LastIndex() < e.index {
          Append(e);
        }
        assert entries == StoredOne(before, e);
      }
    }

    /** The simulator's consistency check. */
    predicate Consistent(prevIndex: nat, prevTerm: nat)
      reads this
    {
      prevIndex > 0 ==> TermAt(prevIndex) == prevTerm
    }

    /** It differs from the deployed coordinator's exactly on positions beyond
        the log: with term 0 the simulator accepts them. */
    lemma ChecksDiffer(prevIndex: nat, prevTerm: nat)
      ensures Consistent(prevIndex, prevTerm) <==>
        PrevMatches(entries, prevIndex, prevTerm) || (prevIndex > |entries| && prevTerm == 0)
    {
    }
  }
}
