/**
 The request/admission state machine of the elevator module in syscalls.c.

 The state is the `elevator_active` flag and a cabin: a singly linked list of
 passengers (newest first) with a cached passenger count and total weight.
 The three entry points `start_elevator`, `issue_request` and `stop_elevator`
 are pure transitions returning the next state and the integer status code
 the C function returns. Locking is left out: every call is atomic.

 The C weights are `float`s (1.0, 1.5, 2.0, 0.5, limit 7). They are counted
 here in half-units (2, 3, 4, 1, limit 14); every sum of at most five of them
 is exactly representable, so the comparison `total + weight > 7` is the same.
 */
module Syscalls {

  /** `FLOORS`: floors are numbered 1 through 5. */
  const Floors := 5

  /** `MAX_PASSENGERS`. */
  const MaxPassengers := 5

  /** `MAX_WEIGHT` (7.0) in half-units. */
  const MaxWeight := 14

  /** The `PassengerType` enumerators; the syscall receives the type as a plain `int`. */
  const PartTime := 0
  const Lawyer := 1
  const Boss := 2
  const Visitor := 3

  /** `weights[]` = {1.0, 1.5, 2.0, 0.5}, in half-units, indexed by type. */
  const Weights: seq<int> := [2, 3, 4, 1]

  /** Linux errno for a failed allocation; `issue_request` returns its negation. */
  const ENOMEM := 12

  /** Status codes returned by the three entry points. */
  const Ok := 0
  /** Invalid request, elevator already active, or already stopped. */
  const Refused := 1
  /** Weight or passenger-count limit reached. */
  const OverLimit := -1

  datatype Passenger = Passenger(startFloor: int, destinationFloor: int, kind: int)

  /** `cabin` is the list from `elevator.head` onwards. */
  datatype Machine = Machine(active: bool, cabin: seq<Passenger>, numPassengers: int, totalWeight: int)

  /** A transition: the state after the call and the value the call returns. */
  datatype Outcome = Outcome(next: Machine, status: int)

  predicate ValidFloor(floor: int) {
    1 <= floor <= Floors
  }

  predicate ValidKind(kind: int) {
    PartTime <= kind <= Visitor
  }

  predicate KindsValid(s: seq<Passenger>) {
    forall i :: 0 <= i < |s| ==> ValidKind(s[i].kind)
  }

  /** Sum of `weights[type]` over a list of passengers, in half-units. */
  function TotalWeight(s: seq<Passenger>): (w: int)
    requires KindsValid(s)
    ensures |s| <= w <= 4 * |s|
  {
    if s == [] then 0 else Weights[s[0].kind] + TotalWeight(s[1..])
  }

  /** The cached counters describe the list exactly. */
  predicate Consistent(m: Machine) {
    && KindsValid(m.cabin)
    && m.numPassengers == |m.cabin|
    && m.totalWeight == TotalWeight(m.cabin)
  }

  /** The capacity bounds `issue_request` is meant to keep. */
  predicate WithinLimits(m: Machine) {
    m.numPassengers <= MaxPassengers && m.totalWeight <= MaxWeight
  }

  /** `elevator_init`: an empty list, zero counters, and the elevator already active. */
  function Init(): (m: Machine)
    ensures m.active && m.cabin == []
    ensures Consistent(m) && WithinLimits(m)
  {
    Machine(true, [], 0, 0)
  }

  /**
   `elevator_exit`: frees every node of the list. The cached count and weight
   are not reset, so they no longer describe the (empty) list.
   */
  function Exit(m: Machine): (r: Machine)
    ensures r.cabin == []
    ensures r.active == m.active
    ensures r.numPassengers == m.numPassengers && r.totalWeight == m.totalWeight
  {
    m.(cabin := [])
  }

  /** `start_elevator`: returns 1 if already active, otherwise sets the flag and returns 0. */
  function Start(m: Machine): (r: Outcome)
    ensures r.status == Refused <==> m.active
    ensures r.status == Ok <==> !m.active
    ensures r.next.active
    ensures r.next.cabin == m.cabin
    ensures r.next.numPassengers == m.numPassengers && r.next.totalWeight == m.totalWeight
  {
    if m.active then Outcome(m, Refused) else Outcome(m.(active := true), Ok)
  }

  /** `stop_elevator`: returns 1 if inactive, otherwise clears the flag and returns 0; no passenger leaves. */
  function Stop(m: Machine): (r: Outcome)
    ensures r.status == Refused <==> !m.active
    ensures r.status == Ok <==> m.active
    ensures !r.next.active
    ensures r.next.cabin == m.cabin
    ensures r.next.numPassengers == m.numPassengers && r.next.totalWeight == m.totalWeight
  {
    if !m.active then Outcome(m, Refused) else Outcome(m.(active := false), Ok)
  }

  /** The argument check of `issue_request`: active, both floors in 1..5, type in 0..3. */
  predicate Acceptable(m: Machine, startFloor: int, destinationFloor: int, kind: int) {
    m.active && ValidFloor(startFloor) && ValidFloor(destinationFloor) && ValidKind(kind)
  }

  /** The admission check of `issue_request`: the weight stays within 7 and fewer than 5 are aboard. */
  predicate Admits(m: Machine, kind: int)
    requires ValidKind(kind)
  {
    m.totalWeight + Weights[kind] <= MaxWeight && m.numPassengers < MaxPassengers
  }

  /**
   `issue_request`. `allocOk` is whether `kmalloc` succeeded. Every failure
   leaves the state as it was; success prepends the passenger and updates
   both counters.
   */
  function IssueRequest(m: Machine, startFloor: int, destinationFloor: int, kind: int, allocOk: bool): (r: Outcome)
    ensures r.status in {Ok, Refused, OverLimit, -ENOMEM}
    ensures r.status != Ok ==> r.next == m
    ensures r.status == Refused <==> !Acceptable(m, startFloor, destinationFloor, kind)
    ensures r.status == OverLimit <==>
      Acceptable(m, startFloor, destinationFloor, kind) && !Admits(m, kind)
    ensures r.status == -ENOMEM <==>
      Acceptable(m, startFloor, destinationFloor, kind) && Admits(m, kind) && !allocOk
    ensures r.status == Ok <==>
      Acceptable(m, startFloor, destinationFloor, kind) && Admits(m, kind) && allocOk
    ensures r.status == Ok ==>
      && r.next.active == m.active
      && |r.next.cabin| == |m.cabin| + 1
      && r.next.cabin[0] == Passenger(startFloor, destinationFloor, kind)
      && r.next.cabin[1..] == m.cabin
      && r.next.numPassengers == m.numPassengers + 1
      && r.next.totalWeight == m.totalWeight + Weights[kind]
  {
    if !Acceptable(m, startFloor, destinationFloor, kind) then
      Outcome(m, Refused)
    else if m.totalWeight + Weights[kind] > MaxWeight || m.numPassengers >= MaxPassengers then
      Outcome(m, OverLimit)
    else if !allocOk then
      Outcome(m, -ENOMEM)
    else
      var p := Passenger(startFloor, destinationFloor, kind);
      Outcome(m.(cabin := [p] + m.cabin,
                 numPassengers := m.numPassengers + 1,
                 totalWeight := m.totalWeight + Weights[kind]), Ok)
  }

  /** One call through the syscall interface. */
  datatype Call =
    | StartCall
    | StopCall
    | RequestCall(startFloor: int, destinationFloor: int, kind: int, allocOk: bool)

  function Apply(m: Machine, c: Call): Outcome {
    match c
    case StartCall => Start(m)
    case StopCall => Stop(m)
    case RequestCall(s, d, k, a) => IssueRequest(m, s, d, k, a)
  }

  /** The state after a sequence of calls, each taking effect atomically. */
  function Run(m: Machine, calls: seq<Call>): Machine
    decreases |calls|
  {
    if calls == [] then m else Run(Apply(m, calls[0]).next, calls[1..])
  }

  /** Every single call keeps the counters exact and within the limits. */
  lemma ApplyPreservesInvariants(m: Machine, c: Call)
    requires Consistent(m) && WithinLimits(m)
    ensures Consistent(Apply(m, c).next) && WithinLimits(Apply(m, c).next)
  {
  }

  /** Any sequence of calls keeps the counters exact and within the limits. */
  lemma {:induction false} RunPreservesInvariants(m: Machine, calls: seq<Call>)
    requires Consistent(m) && WithinLimits(m)
    ensures Consistent(Run(m, calls)) && WithinLimits(Run(m, calls))
    decreases |calls|
  {
    if calls != [] {
      ApplyPreservesInvariants(m, calls[0]);
      RunPreservesInvariants(Apply(m, calls[0]).next, calls[1..]);
    }
  }

  /** Every state reachable from `elevator_init` satisfies both invariants. */
  lemma ReachableStatesAreValid(calls: seq<Call>)
    ensures Consistent(Run(Init(), calls))
    ensures WithinLimits(Run(Init(), calls))
  {
    RunPreservesInvariants(Init(), calls);
  }

  /**
   No call ever removes a passenger: the list before a run is the tail of the
   list after it (there is no offloading, syscalls.c:122).
   */
  lemma {:induction false} RunNeverRemovesPassengers(m: Machine, calls: seq<Call>)
    ensures |m.cabin| <= |Run(m, calls).cabin|
    ensures Run(m, calls).cabin[|Run(m, calls).cabin| - |m.cabin|..] == m.cabin
    decreases |calls|
  {
    if calls != [] {
      var n := Apply(m, calls[0]).next;
      RunNeverRemovesPassengers(n, calls[1..]);
      var f := Run(m, calls).cabin;
      assert f == Run(n, calls[1..]).cabin;
      if n.cabin != m.cabin {
        assert n.cabin == n.cabin[..1] + m.cabin;
        assert f[|f| - |n.cabin|..] == n.cabin;
        assert f[|f| - |m.cabin|..] == n.cabin[1..];
      }
    }
  }

  /** Starting an inactive elevator and stopping it again restores the state. */
  lemma StopUndoesStart(m: Machine)
    requires !m.active
    ensures Start(m).status == Ok
    ensures Stop(Start(m).next) == Outcome(m, Ok)
  {
  }

  /** Stopping an active elevator and starting it again restores the state. */
  lemma StartUndoesStop(m: Machine)
    requires m.active
    ensures Stop(m).status == Ok
    ensures Start(Stop(m).next) == Outcome(m, Ok)
  {
  }

  /** Right after `elevator_init` the elevator is already active, so `start_elevator` is refused. */
  lemma StartAfterInitRefused()
    ensures Start(Init()) == Outcome(Init(), Refused)
  {
  }

  /** Once stopped, every request is refused with status 1 and changes nothing. */
  lemma StoppedRefusesRequests(m: Machine, startFloor: int, destinationFloor: int, kind: int, allocOk: bool)
    requires m.active
    ensures IssueRequest(Stop(m).next, startFloor, destinationFloor, kind, allocOk) == Outcome(Stop(m).next, Refused)
  {
  }

  /** Freeing the list at exit without resetting the counters leaves them stale whenever the list was non-empty. */
  lemma ExitLeavesCountersStale(m: Machine)
    requires Consistent(m) && m.cabin != []
    ensures !Consistent(Exit(m))
  {
  }
}
