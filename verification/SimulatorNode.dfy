/** Battery ticks of the simulator's nodes (simulation/core/node.py): the
    hysteresis between OBSERVER and FOLLOWER. */
module SimulatorNode {
  import opened Types

  /** The part of a node that battery ticks and elections change. Batteries lie
      between 0.0 and 1.0. */
  datatype Cell = Cell(coordinator: bool, battery: real, role: Role, term: nat, votedFor: Option<NodeId>)

  function Clamped(x: real): real {
    Max(0.0, Min(1.0, x))
  }

  /** `tick_battery(delta)`; a negative delta charges the battery. */
  function Ticked(c: Cell, delta: real): Cell {
    var c1 := c.(battery := Clamped(c.battery - delta));
    if !c.coordinator then c1
    else if c1.battery * 100.0 < T_LOW as real && c.role != Observer then c1.(role := Observer, votedFor := None)
    else if c1.battery * 100.0 >= T_RESTORE as real && c.role == Observer then c1.(role := Follower)
    else c1
  }

  function SteppedDown(c: Cell, term: nat): Cell {
    c.(term := term, votedFor := None,
       role := if c.coordinator && (c.role == Candidate || Leads(c.role)) then Follower else c.role)
  }

  class SimNode {
    const coordinator: bool
    var battery: real
    var role: Role
    var currentTerm: nat
    var votedFor: Option<NodeId>

    constructor (coordinator: bool, battery: real)
      ensures State() == Cell(coordinator, battery, Follower, 0, None)
    {
      this.coordinator, this.battery, role, currentTerm, votedFor := coordinator, battery, Follower, 0, None;
    }

    function State(): Cell
      reads this
    {
      Cell(coordinator, battery, role, currentTerm, votedFor)
    }

    method TickBattery(delta: real)
      modifies `battery, `role, `votedFor
      ensures State() == Ticked(old(State()), delta)
    {
      battery := Max(0.0, Min(1.0, battery - delta));
      var pct := battery * 100.0;
      if !coordinator { return; }
      if pct < T_LOW as real && role != Observer {
        role := Observer;
        votedFor := None;
      } else if pct >= T_RESTORE as real && role == Observer {
        role := Follower;
      }
    }

    method StepDown(newTerm: nat)
      modifies `currentTerm, `votedFor, `role
      ensures State() == SteppedDown(old(State()), newTerm)
    {
      currentTerm := newTerm;
      votedFor := None;
      if coordinator && role in {Candidate, Leader, LocalLeader} {
        role := Follower;
      }
    }
  }

  // ------------------------------------------------------------- hysteresis

  /** A battery tick, a step-down, or a change of role by the protocol, none of
      which enters or leaves OBSERVER. */
  datatype Event =
    | Tick(delta: real)
    | NewTerm(term: nat)
    | Becomes(role: Role)

  function Next(c: Cell, e: Event): Cell {
    match e
    case Tick(delta) => Ticked(c, delta)
    case NewTerm(term) => SteppedDown(c, term)
    case Becomes(role) => if c.role == Observer || role == Observer then c else c.(role := role)
  }

  function After(c: Cell, events: seq<Event>): Cell {
    if events == [] then c else Next(After(c, events[..|events| - 1]), events[|events| - 1])
  }

  /** How often the node came back from OBSERVER. */
  function Reentries(c: Cell, events: seq<Event>): nat {
    if events == [] then 0
    else
      var before := After(c, events[..|events| - 1]);
      Reentries(c, events[..|events| - 1])
      + (if before.role == Observer && After(c, events).role != Observer then 1 else 0)
  }

  /** The charge added by all ticks together. */
  function Charged(events: seq<Event>): real {
    if events == [] then 0.0
    else
      var e := events[|events| - 1];
      Charged(events[..|events| - 1]) + (if e.Tick? && e.delta < 0.0 then -e.delta else 0.0)
  }

  /** Charge not yet accounted for by a re-entry, each worth ten percentage
      points; an OBSERVER has some in proportion to how far it has recovered. */
  predicate Paid(c: Cell, spare: real) {
    0.0 <= spare && 0.0 <= c.battery <= 1.0 && (c.role == Observer ==> c.battery - 0.15 <= spare)
  }

  lemma PaidStep(c: Cell, e: Event, spare: real)
    requires c.coordinator && Paid(c, spare)
    ensures var c' := Next(c, e);
      var charge := if e.Tick? && e.delta < 0.0 then -e.delta else 0.0;
      c'.coordinator && Paid(c', spare + charge - (if c.role == Observer && c'.role != Observer then 0.1 else 0.0))
  {
  }

  /** Ten percentage points for every return from OBSERVER come out of the total
      charge added. */
  lemma {:induction false} HysteresisBound(c: Cell, events: seq<Event>)
    requires c.coordinator && 0.0 <= c.battery <= 1.0 && c.role != Observer
    ensures 0.1 * Reentries(c, events) as real <= Charged(events)
    ensures After(c, events).coordinator
    ensures Paid(After(c, events), Charged(events) - 0.1 * Reentries(c, events) as real)
    decreases |events|
  {
    hide Next;
    if events != [] {
      var front, last := events[..|events| - 1], events[|events| - 1];
      HysteresisBound(c, front);
      PaidStep(After(c, front), last, Charged(front) - 0.1 * Reentries(c, front) as real);
    }
  }

  /** With no recharge, OBSERVER is absorbing. */
  lemma {:induction false} ObserverAbsorbing(c: Cell, events: seq<Event>, i: nat)
    requires c.coordinator && 0.0 <= c.battery <= 1.0 && c.role != Observer && i <= |events|
    requires Charged(events) == 0.0 && After(c, events[..i]).role == Observer
    ensures After(c, events).role == Observer
    decreases |events|
  {
    hide Next;
    if i < |events| {
      var front := events[..|events| - 1];
      assert front[..i] == events[..i];
      HysteresisBound(c, front);
      ChargedGrows(front);
      assert Charged(front) == 0.0;
      ObserverAbsorbing(c, front, i);
      HysteresisBound(c, events);
    } else {
      assert events[..i] == events;
    }
  }

  lemma {:induction false} ChargedGrows(events: seq<Event>)
    ensures Charged(events) >= 0.0
    decreases |events|
  {
    if events != [] { ChargedGrows(events[..|events| - 1]); }
  }

  /** The battery of the latest tick that left the band between 15 and 25 percent
      was below it. */
  predicate LastSeenLow(c: Cell, events: seq<Event>) {
    events != [] &&
    var front, last := events[..|events| - 1], events[|events| - 1];
    var battery := After(c, events).battery;
    if last.Tick? && battery < 0.15 then true
    else if last.Tick? && battery >= 0.25 then false
    else LastSeenLow(c, front)
  }

  /** Over any events, a coordinator is OBSERVER exactly if its battery was low when
      it was last outside the band, and then has no vote. A leaf never is. */
  lemma {:induction false} RoleFollowsBattery(c: Cell, events: seq<Event>)
    requires c.role != Observer
    ensures After(c, events).coordinator == c.coordinator
    ensures After(c, events).role == Observer <==> c.coordinator && LastSeenLow(c, events)
    ensures After(c, events).role == Observer ==> After(c, events).votedFor == None
    decreases |events|
  {
    if events != [] { RoleFollowsBattery(c, events[..|events| - 1]); }
  }

  /** A newer term ends every office and candidacy of a coordinator, and takes its
      vote back. */
  lemma NewTermHumbles(c: Cell, events: seq<Event>, term: nat)
    requires events != [] && events[|events| - 1] == NewTerm(term)
    ensures var c' := After(c, events);
      && c'.term == term && c'.votedFor == None
      && c'.battery == After(c, events[..|events| - 1]).battery
      && (c.coordinator ==> c'.role in {Follower, Observer})
      && (c'.role == Observer <==> After(c, events[..|events| - 1]).role == Observer)
  {
    KeepsKind(c, events[..|events| - 1]);
  }

  lemma {:induction false} KeepsKind(c: Cell, events: seq<Event>)
    ensures After(c, events).coordinator == c.coordinator
    decreases |events|
  {
    if events != [] { KeepsKind(c, events[..|events| - 1]); }
  }
}
