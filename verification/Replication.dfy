/** Storing a leader's entries, and counting its acks (section 5.3 of the Raft
    paper). */
module Replication {
  import opened Types
  import opened Handlers
  import opened Moves

  /** Log Matching between two logs. */
  ghost predicate Agree(a: Log, b: Log) {
    forall i :: 0 <= i < |a| && i < |b| && a[i].term == b[i].term ==> a[..i + 1] == b[..i + 1]
  }

  ghost predicate Indexed(log: Log) {
    forall i :: 0 <= i < |log| ==> log[i].index == i + 1
  }

  /** The storing loop leaves the receiver's log as it was, or makes it exactly
      the leader's log at the time of sending. */
  lemma {:induction false} StoreAllMerges(s: Node, whole: Log, j: nat)
    requires j <= |whole| && whole[..j] <= s.log && Indexed(whole) && Agree(s.log, whole)
    ensures StoreAll(s, whole[j..]).node == s.(log := Merge(s.log, whole))
    ensures forall m :: m in StoreAll(s, whole[j..]).sent ==> m.payload.ReconcileBatch?
    decreases |whole| - j
  {
    if j < |whole| {
      var first := Store(s, whole[j]);
      assert whole[j..][0] == whole[j] && whole[j..][1..] == whole[j + 1..];
      StoreOne(s, whole, j);
      StoreAllMerges(first.node, whole, j + 1);
    } else {
      assert whole[..j] == whole;
    }
  }

  /** One round of the loop extends the stored part of the leader's log. */
  lemma StoreOne(s: Node, whole: Log, j: nat)
    requires j < |whole| && whole[..j] <= s.log && Indexed(whole) && Agree(s.log, whole)
    ensures var s1 := Store(s, whole[j]).node;
      && s1 == s.(log := s1.log)
      && whole[..j + 1] <= s1.log && Agree(s1.log, whole)
      && Merge(s1.log, whole) == Merge(s.log, whole)
    ensures forall m :: m in Store(s, whole[j]).sent ==> m.payload.ReconcileBatch?
  {
    var s1 := Store(s, whole[j]).node;
    if j < |s.log| && s.log[j].term == whole[j].term {
      assert s1.log == s.log && s.log[..j + 1] == whole[..j + 1];
    } else {
      assert s.log[..j] == whole[..j];
      assert s1.log == whole[..j + 1];
      assert j < |s.log| ==> s.log[j] != whole[j];
    }
  }

  /** How far two logs are identical. */
  function Common(a: Log, b: Log): (n: nat)
    ensures n <= |a| && n <= |b| && a[..n] == b[..n]
    ensures n < |a| && n < |b| ==> a[n] != b[n]
  {
    if a == [] || b == [] || a[0] != b[0] then 0 else 1 + Common(a[1..], b[1..])
  }

  /** The storing loop cuts at most once, where the receiver's log first differs
      from the leader's, and replays what it cut there. */
  lemma {:induction false} StoreAllReplays(s: Node, whole: Log, j: nat)
    requires j <= |whole| && whole[..j] <= s.log && Indexed(whole) && Agree(s.log, whole)
    ensures StoreAll(s, whole[j..]).sent == Cut(s, whole)
    decreases |whole| - j
  {
    hide Store, Cut, Agree, Indexed;
    if j < |whole| {
      var first := Store(s, whole[j]);
      assert whole[j..][0] == whole[j] && whole[j..][1..] == whole[j + 1..];
      StoreOne(s, whole, j);
      StoreAllReplays(first.node, whole, j + 1);
      CutOnce(s, whole, j);
    } else {
      assert whole[..j] == whole;
      NoCut(s, whole);
    }
  }

  /** What storing `whole` replays: the provisional part of what it cuts. */
  function Cut(s: Node, whole: Log): seq<Packet> {
    var d := Common(s.log, whole);
    if d < |s.log| && d < |whole| then ReplayProvisional(s, s.log[d..]) else []
  }

  lemma CutOnce(s: Node, whole: Log, j: nat)
    requires j < |whole| && whole[..j] <= s.log && Indexed(whole) && Agree(s.log, whole)
    ensures Cut(s, whole) == Store(s, whole[j]).sent + Cut(Store(s, whole[j]).node, whole)
  {
    hide ReplayProvisional;
    var e := whole[j];
    if j < |s.log| && s.log[j].term == e.term {
      assert Store(s, e) == Out(s, []);
    } else {
      assert s.log[..j] == whole[..j];
      assert s.log[..j] + [e] == whole[..j + 1];
      assert j == |s.log| ==> s.log == s.log[..j];
      assert j < |s.log| ==> s.log[j] != e;
      CommonIs(s.log, whole, j);
      NoCut(Store(s, e).node, whole);
    }
  }

  lemma NoCut(s: Node, whole: Log)
    requires s.log <= whole || whole <= s.log
    ensures Cut(s, whole) == []
  {
    CommonIs(s.log, whole, if |s.log| <= |whole| then |s.log| else |whole|);
  }

  lemma CommonIs(a: Log, b: Log, n: nat)
    requires n <= |a| && n <= |b| && a[..n] == b[..n]
    requires n < |a| && n < |b| ==> a[n] != b[n]
    ensures Common(a, b) == n
  {
    var d := Common(a, b);
    if d < n { SameAt(a, b, n, d); }
    if n < d { SameAt(a, b, d, n); }
  }

  lemma SameAt(a: Log, b: Log, n: nat, i: nat)
    requires i < n <= |a| && n <= |b| && a[..n] == b[..n]
    ensures a[i] == b[i]
  {
    assert a[i] == a[..n][i];
  }

  // ---------------------------------------------------------- counting acks

  /** The peers whose match index has reached n. */
  function Matched(peers: seq<NodeId>, matchIndex: map<NodeId, nat>, n: nat): set<NodeId> {
    set p | p in peers && Get(matchIndex, p, 0) >= n
  }

  lemma {:induction false} CountIsSize(peers: seq<NodeId>, matchIndex: map<NodeId, nat>, n: nat)
    requires forall i, j :: 0 <= i < j < |peers| ==> peers[i] != peers[j]
    ensures CountMatches(peers, matchIndex, n) == |Matched(peers, matchIndex, n)|
    decreases |peers|
  {
    hide Matched;
    if peers == [] {
      NoneMatched(matchIndex, n);
    } else {
      var k := |peers| - 1;
      CountIsSize(peers[..k], matchIndex, n);
      MatchedLast(peers, matchIndex, n);
    }
  }

  lemma NoneMatched(matchIndex: map<NodeId, nat>, n: nat)
    ensures Matched([], matchIndex, n) == {}
  {
  }

  lemma MatchedLast(peers: seq<NodeId>, matchIndex: map<NodeId, nat>, n: nat)
    requires peers != [] && forall i, j :: 0 <= i < j < |peers| ==> peers[i] != peers[j]
    ensures var k := |peers| - 1;
      |Matched(peers, matchIndex, n)| ==
      |Matched(peers[..k], matchIndex, n)| + (if Get(matchIndex, peers[k], 0) >= n then 1 else 0)
  {
    var k := |peers| - 1;
    var rest, last := Matched(peers[..k], matchIndex, n), peers[k];
    assert peers == peers[..k] + [last];
    assert Matched(peers, matchIndex, n) == if Get(matchIndex, last, 0) >= n then rest + {last} else rest;
  }

  /** A list as long as the set of its elements repeats none. */
  lemma {:induction false} NoRepeats(xs: seq<NodeId>)
    requires |Elements(xs)| == |xs|
    ensures forall i, j :: 0 <= i < j < |xs| ==> xs[i] != xs[j]
  {
    if xs != [] {
      var front, last := xs[..|xs| - 1], xs[|xs| - 1];
      var all, some := Elements(xs), Elements(front);
      assert all == some + {last};
      SetOfSeq(front);
      assert last in some ==> all == some;
      assert |all| == |some| + 1;
      NoRepeats(front);
    }
  }

  lemma {:induction false} SetOfSeq(xs: seq<NodeId>)
    ensures |Elements(xs)| <= |xs|
  {
    if xs != [] {
      var front, last := xs[..|xs| - 1], xs[|xs| - 1];
      SetOfSeq(front);
      var all, some := Elements(xs), Elements(front);
      assert all == some + {last};
      assert last in some ==> all == some;
    }
  }

  /** The downward scan finds the greatest committable position above the
      commit index, if there is one. */
  lemma {:induction false} CommitPointIsGreatest(s: Node, n: nat)
    requires s.commit <= n <= |s.log|
    ensures var k := CommitPoint(s, n);
      && s.commit <= k <= n
      && (k > s.commit ==> Committable(s, k))
      && (forall i :: k < i <= n ==> !Committable(s, i))
  {
    if n > s.commit && !Committable(s, n) {
      CommitPointIsGreatest(s, n - 1);
    }
  }
}
