/** The window of recently replayed commands, over any sequence of
    reconciliation messages and over whole runs. */
module Dedup {
  import opened Types
  import opened Handlers
  import opened Clusters
  import Ledger
  import Safety

  predicate Distinct(xs: seq<Command>) {
    forall i, j :: 0 <= i < j < |xs| ==> xs[i] != xs[j]
  }

  /** xs is the last part of ys. */
  predicate Suffix(xs: seq<Command>, ys: seq<Command>) {
    |xs| <= |ys| && ys[|ys| - |xs|..] == xs
  }

  /** The window and the history of all commands replayed: the window holds the
      latest of them, at least 101 if there were as many, each once; and equal
      commands of the history lie more than 101 places apart. */
  ghost predicate WindowOk(window: seq<Command>, history: seq<Command>) {
    && Distinct(window) && Suffix(window, history)
    && |window| >= (if |history| <= 101 then |history| else 101)
    && forall i, j :: 0 <= i < j < |history| && history[i] == history[j] ==> j - i > 101
  }

  /** Where a command first occurs. */
  function First(commands: seq<Command>, c: Command): (i: nat)
    requires c in commands
    ensures i < |commands| && commands[i] == c && c !in commands[..i]
  {
    if commands[0] == c then 0 else 1 + First(commands[1..], c)
  }

  /** Screening lets through each command that is not in the window once, in the
      order of first occurrence, and appends exactly those to the window. */
  lemma {:induction false} ScreenKeepsUnseen(recent: seq<Command>, commands: seq<Command>)
    ensures var (window, unseen) := Screen(recent, commands);
      && window == recent + unseen
      && Distinct(unseen) && (forall c :: c in unseen ==> c in commands && c !in recent)
      && (forall c :: c in commands ==> c in recent || c in unseen)
      && (forall i, j :: 0 <= i < j < |unseen| ==> First(commands, unseen[i]) < First(commands, unseen[j]))
    decreases |commands|
  {
    if commands != [] {
      var c, rest := commands[0], commands[1..];
      assert commands == [c] + rest;
      if c in recent {
        ScreenKeepsUnseen(recent, rest);
      } else {
        ScreenKeepsUnseen(recent + [c], rest);
        var (window, later) := Screen(recent + [c], rest);
        assert recent + ([c] + later) == recent + [c] + later;
        forall d | d in later ensures d !in recent && d != c {
          assert d !in recent + [c];
        }
      }
    }
  }

  /** A command that is not in the window was last replayed long ago. */
  lemma {:induction false} ScreenSeparates(recent: seq<Command>, commands: seq<Command>, history: seq<Command>)
    requires WindowOk(recent, history)
    ensures WindowOk(Screen(recent, commands).0, history + Screen(recent, commands).1)
    decreases |commands|
  {
    if commands == [] {
      assert history + [] == history;
    } else if commands[0] in recent {
      ScreenSeparates(recent, commands[1..], history);
    } else {
      var c := commands[0];
      Admit(recent, c, history);
      ScreenSeparates(recent + [c], commands[1..], history + [c]);
      var later := Screen(recent + [c], commands[1..]).1;
      assert history + [c] + later == history + ([c] + later);
    }
  }

  lemma Admit(recent: seq<Command>, c: Command, history: seq<Command>)
    requires WindowOk(recent, history) && c !in recent
    ensures WindowOk(recent + [c], history + [c])
  {
    var longer := history + [c];
    forall i, j | 0 <= i < j < |longer| && longer[i] == longer[j] ensures j - i > 101 {
      if |history| - |recent| <= i < |history| {
        assert history[i] == recent[i - (|history| - |recent|)];
      }
    }
    assert longer[|longer| - (|recent| + 1)..] == recent + [c];
  }

  lemma TrimKeepsWindow(window: seq<Command>, history: seq<Command>)
    requires WindowOk(window, history)
    ensures WindowOk(Trim(window), history)
  {
    if |window| > 200 {
      assert history[|history| - |window|..][100..] == history[|history| - |window| + 100..];
    }
  }

  // ------------------------------------------------------------- whole runs

  /** The commands that node n has replayed during the run, in order. */
  ghost function Replayed(run: seq<Cluster>, acts: seq<Action>, n: NodeId): seq<Command>
    requires Ledger.EnabledAll(run, acts)
    decreases |acts|
  {
    if acts == [] then []
    else
      var last := |acts| - 1;
      assert Enabled(run[last], acts[last]);
      var s := run[last].nodes[acts[last].node];
      Replayed(run[..last + 1], acts[..last], n)
      + (if acts[last].node == n && Ledger.Reconciles(s, acts[last]) then Ledger.Intake(s, acts[last]) else [])
  }

  /** Over any run, two replays of one command by a node have at least 101 other
      replays between them. */
  lemma {:induction false} ReplaysFarApart(run: seq<Cluster>, acts: seq<Action>, n: NodeId)
    requires IsRun(run, acts) && n in run[0].nodes
    ensures n in run[|acts|].nodes && WindowOk(run[|acts|].nodes[n].recent, Replayed(run, acts, n))
    decreases |acts|
  {
    hide Fire, Enabled, Init, WindowOk, Trim, Screen, Ledger.Reconciles, Ledger.Intake, Ledger.Accounted;
    if acts == [] {
      NothingReplayed(run[0], n);
    } else {
      var last := |acts| - 1;
      Safety.PrefixIsRun(run, acts);
      Ledger.RunEnabled(run[..last + 1], acts[..last]);
      ReplaysFarApart(run[..last + 1], acts[..last], n);
      assert run[..last + 1][last] == run[last] && run[..last + 1][0] == run[0];
      var history := Replayed(run[..last + 1], acts[..last], n);
      assert history + [] == history;
      if acts[last].node == n { StepScreens(run[last], acts[last], history); }
    }
  }

  lemma StepScreens(c: Cluster, a: Action, history: seq<Command>)
    requires Enabled(c, a) && WindowOk(c.nodes[a.node].recent, history)
    ensures var s := c.nodes[a.node];
      WindowOk(Apply(c, a).nodes[a.node].recent, history + (if Ledger.Reconciles(s, a) then Ledger.Intake(s, a)
        else []))
  {
    hide Fire, WindowOk, Trim, Screen;
    var s := c.nodes[a.node];
    Ledger.FireAccounts(s, a);
    assert history + [] == history;
    if Ledger.Reconciles(s, a) {
      var commands := a.packet.payload.commands;
      ScreenSeparates(s.recent, commands, history);
      TrimKeepsWindow(Screen(s.recent, commands).0, history + Screen(s.recent, commands).1);
    }
  }

  lemma NothingReplayed(c: Cluster, n: NodeId)
    requires Init(c) && n in c.nodes
    ensures WindowOk(c.nodes[n].recent, [])
  {
    assert Booted(c.nodes[n]);
  }

  /** The step replays at most 100 commands. */
  predicate Modest(c: Cluster, a: Action)
    requires Enabled(c, a)
  {
    Ledger.Reconciles(c.nodes[a.node], a) ==> |Ledger.Intake(c.nodes[a.node], a)| <= 100
  }

  lemma TrimBounds(recent: seq<Command>, commands: seq<Command>)
    requires |recent| <= 200 && |Screen(recent, commands).1| <= 100
    ensures |Trim(Screen(recent, commands).0)| <= 200
  {
    ScreenKeepsUnseen(recent, commands);
  }

  /** Over any run in which each message brings at most 100 new commands, the
      window of every node stays within 200. */
  lemma {:induction false} BoundedWindow(run: seq<Cluster>, acts: seq<Action>, n: NodeId)
    requires IsRun(run, acts) && n in run[0].nodes
    requires forall i :: 0 <= i < |acts| ==> Enabled(run[i], acts[i]) && Modest(run[i], acts[i])
    ensures n in run[|acts|].nodes && |run[|acts|].nodes[n].recent| <= 200
    decreases |acts|
  {
    hide Fire, Enabled, Init, Modest, Ledger.Accounted;
    if acts == [] {
      EmptyWindow(run[0], n);
    } else {
      var last := |acts| - 1;
      Safety.PrefixIsRun(run, acts);
      forall i | 0 <= i < last
        ensures Enabled(run[..last + 1][i], acts[..last][i]) && Modest(run[..last + 1][i], acts[..last][i])
      {
        assert Modest(run[i], acts[i]);
      }
      BoundedWindow(run[..last + 1], acts[..last], n);
      assert run[..last + 1][last] == run[last] && run[..last + 1][0] == run[0];
      if acts[last].node == n { StepBounds(run[last], acts[last]); }
    }
  }

  lemma StepBounds(c: Cluster, a: Action)
    requires Enabled(c, a) && Modest(c, a) && |c.nodes[a.node].recent| <= 200
    ensures |Apply(c, a).nodes[a.node].recent| <= 200
  {
    hide Fire, Trim, Screen;
    var s := c.nodes[a.node];
    Ledger.FireAccounts(s, a);
    if Ledger.Reconciles(s, a) { TrimBounds(s.recent, a.packet.payload.commands); }
  }

  lemma EmptyWindow(c: Cluster, n: NodeId)
    requires Init(c) && n in c.nodes
    ensures c.nodes[n].recent == []
  {
    assert Booted(c.nodes[n]);
  }
}
