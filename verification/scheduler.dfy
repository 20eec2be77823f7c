/**
 The floor-queue scheduler of part3/src/elevator.c.

 The state is five floors, each with a FIFO queue of waiting passengers, a
 cabin holding its occupants in boarding order, and the cabin's current
 floor. `add_passenger` queues a ride request on its origin floor; one
 iteration of the `elevator_schedule` loop idles, or unloads the occupants
 bound for the current floor, boards that floor's waiting passengers and
 moves to the start floor of the first occupant.

 Kernel plumbing is left out: the thread, the mutexes, the wait queue and the
 sleeps. Each call and each loop iteration is atomic. The source walks the
 cabin list with a non-`_safe` iterator while deleting from it, and links a
 floor's node onto the cabin list without unlinking it from the floor; the
 model follows the evident intent instead: unloading is an order-preserving
 filter, and loading moves the whole floor queue to the tail of the cabin.
 */
module Scheduler {

  /** The size of the `floors[]` array; floor `n` is `floors[n - 1]`. */
  const FloorCount := 5

  /** Linux errno for a failed allocation; `add_passenger` returns its negation. */
  const ENOMEM := 12

  /** The `enum PassengerType` enumerators. */
  const PartTime := 0
  const Lawyer := 1
  const Boss := 2
  const Visitor := 3

  /** `weight` is the C `int` field; `id` is the random id, supplied by the caller. */
  datatype Passenger = Passenger(id: int, kind: int, weight: int, startFloor: int, destinationFloor: int)

  datatype Floor = Floor(number: int, waiting: seq<Passenger>)

  datatype Building = Building(floors: seq<Floor>, cabin: seq<Passenger>, currentFloor: int)

  /** A transition: the state after the call and the value the call returns. */
  datatype Outcome = Outcome(next: Building, status: int)

  // ---------------------------------------------------------------------------
  // Weights

  /** The value each `case` of `add_passenger` assigns (1, 1.5, 2, 0.5, default 1), in half-units. */
  function LiteralHalves(kind: int): nat {
    if kind == PartTime then 2
    else if kind == Lawyer then 3
    else if kind == Boss then 4
    else if kind == Visitor then 1
    else 2
  }

  /**
   The weight stored in the `int` field: the value the `case` assigns,
   converted to `int` with its fraction discarded (C11 6.3.1.4), which for
   these non-negative values is the largest whole number not above it.
   */
  function WeightOf(kind: int): (w: nat)
    ensures 2 * w <= LiteralHalves(kind) < 2 * w + 2
  {
    LiteralHalves(kind) / 2
  }

  /** The stored weights per type: 1.5 becomes 1 and 0.5 becomes 0. */
  lemma WeightTable(kind: int)
    ensures WeightOf(PartTime) == 1
    ensures WeightOf(Lawyer) == 1
    ensures WeightOf(Boss) == 2
    ensures WeightOf(Visitor) == 0
    ensures !(PartTime <= kind <= Visitor) ==> WeightOf(kind) == 1
  {
  }

  function NewPassenger(id: int, kind: int, startFloor: int, destinationFloor: int): Passenger {
    Passenger(id, kind, WeightOf(kind), startFloor, destinationFloor)
  }

  // ---------------------------------------------------------------------------
  // Where the passengers are

  /** Everyone waiting on the given floors. */
  function WaitingBag(floors: seq<Floor>): multiset<Passenger> {
    if floors == [] then multiset{} else multiset(floors[0].waiting) + WaitingBag(floors[1..])
  }

  /** Everyone in the building: the cabin's occupants and all waiting passengers. */
  function Everyone(b: Building): multiset<Passenger> {
    multiset(b.cabin) + WaitingBag(b.floors)
  }

  /** Replacing one floor's queue changes the waiting bag by exactly that queue's difference. */
  lemma {:induction false} WaitingBagUpdate(floors: seq<Floor>, i: int, f: Floor)
    requires 0 <= i < |floors|
    ensures WaitingBag(floors[i := f]) + multiset(floors[i].waiting) == WaitingBag(floors) + multiset(f.waiting)
    decreases i
  {
    var u := floors[i := f];
    if i == 0 {
      assert u[1..] == floors[1..];
    } else {
      assert u[0] == floors[0];
      assert u[1..] == floors[1..][i - 1 := f];
      assert floors[1..][i - 1] == floors[i];
      WaitingBagUpdate(floors[1..], i - 1, f);
      var head := multiset(floors[0].waiting);
      var x := WaitingBag(floors[1..][i - 1 := f]);
      var y := WaitingBag(floors[1..]);
      assert WaitingBag(u) + multiset(floors[i].waiting) == head + (x + multiset(floors[i].waiting));
      assert WaitingBag(floors) + multiset(f.waiting) == head + (y + multiset(f.waiting));
    }
  }

  /** A bag added to both sides of an equation cancels. */
  lemma BagCancel<T>(x: multiset<T>, y: multiset<T>, m: multiset<T>)
    requires x + m == y + m
    ensures x == y
  {
    forall o
      ensures x[o] == y[o]
    {
      assert (x + m)[o] == (y + m)[o];
    }
  }

  /** A floor serves passengers who start there and do not want to stay there. */
  predicate QueuedAt(f: Floor, n: int) {
    forall j :: 0 <= j < |f.waiting| ==>
      f.waiting[j].startFloor == n && f.waiting[j].startFloor != f.waiting[j].destinationFloor
  }

  /** An occupant boarded at one of the five floors, bound for another floor. */
  predicate Rider(p: Passenger) {
    1 <= p.startFloor <= FloorCount && p.startFloor != p.destinationFloor
  }

  /**
   The shape every reachable state has: five floors numbered 1..5, each
   queue holding only passengers who start on that floor, occupants who
   boarded on one of the floors, and a current floor in 1..5.
   */
  predicate WellFormed(b: Building) {
    && |b.floors| == FloorCount
    && (forall i :: 0 <= i < FloorCount ==> b.floors[i].number == i + 1 && QueuedAt(b.floors[i], i + 1))
    && (forall j :: 0 <= j < |b.cabin| ==> Rider(b.cabin[j]))
    && 1 <= b.currentFloor <= FloorCount
  }

  // ---------------------------------------------------------------------------
  // Setup and teardown

  /** The state set up by `elevator_init` before any passenger is added. */
  function Setup(): (b: Building)
    ensures WellFormed(b)
    ensures b.currentFloor == 1 && b.cabin == []
    ensures forall i :: 0 <= i < FloorCount ==> b.floors[i] == Floor(i + 1, [])
    ensures Everyone(b) == multiset{}
  {
    Building([Floor(1, []), Floor(2, []), Floor(3, []), Floor(4, []), Floor(5, [])], [], 1)
  }

  /** Every floor with its queue emptied. */
  function ClearFloors(floors: seq<Floor>): (r: seq<Floor>)
    ensures |r| == |floors|
    ensures forall i :: 0 <= i < |r| ==> r[i] == floors[i].(waiting := [])
    ensures WaitingBag(r) == multiset{}
  {
    if floors == [] then [] else [floors[0].(waiting := [])] + ClearFloors(floors[1..])
  }

  /** `elevator_exit`: every occupant is unloaded and every waiting passenger freed. */
  function Exit(b: Building): (r: Building)
    requires WellFormed(b)
    ensures WellFormed(r)
    ensures r.cabin == [] && Everyone(r) == multiset{}
    ensures r.currentFloor == b.currentFloor
    ensures forall i :: 0 <= i < FloorCount ==> r.floors[i].number == b.floors[i].number && r.floors[i].waiting == []
  {
    Building(ClearFloors(b.floors), [], b.currentFloor)
  }

  // ---------------------------------------------------------------------------
  // add_passenger

  /**
   `add_passenger`. `allocOk` is whether `kmalloc` succeeded and `id` stands
   for the random id. A request whose floors coincide is released at once
   (`unload_passenger` on a node in no list); any other is appended to its
   start floor's queue. The function does not check the start floor, so a
   queued request needs one in 1..5.
   */
  function AddPassenger(b: Building, id: int, kind: int, startFloor: int, destFloor: int, allocOk: bool): (r: Outcome)
    requires |b.floors| == FloorCount
    requires allocOk && startFloor != destFloor ==> 1 <= startFloor <= FloorCount
    ensures !allocOk ==> r == Outcome(b, -ENOMEM)
    ensures allocOk ==> r.status == 0
    ensures startFloor == destFloor ==> r.next == b
    ensures r.next.cabin == b.cabin && r.next.currentFloor == b.currentFloor
    ensures |r.next.floors| == FloorCount
    ensures forall i :: 0 <= i < FloorCount && i != startFloor - 1 ==> r.next.floors[i] == b.floors[i]
    ensures allocOk && startFloor != destFloor ==>
      && r.next.floors[startFloor - 1].number == b.floors[startFloor - 1].number
      && r.next.floors[startFloor - 1].waiting ==
         b.floors[startFloor - 1].waiting + [NewPassenger(id, kind, startFloor, destFloor)]
  {
    if !allocOk then
      Outcome(b, -ENOMEM)
    else if startFloor == destFloor then
      Outcome(b, 0)
    else
      var i := startFloor - 1;
      var f := b.floors[i];
      Outcome(b.(floors := b.floors[i := f.(waiting := f.waiting + [NewPassenger(id, kind, startFloor, destFloor)])]), 0)
  }

  /** A queued request adds exactly one passenger to the building; any other outcome adds none. */
  lemma AddPassengerConserves(b: Building, id: int, kind: int, startFloor: int, destFloor: int, allocOk: bool)
    requires |b.floors| == FloorCount
    requires allocOk && startFloor != destFloor ==> 1 <= startFloor <= FloorCount
    ensures var r := AddPassenger(b, id, kind, startFloor, destFloor, allocOk);
      Everyone(r.next) ==
        if allocOk && startFloor != destFloor
        then Everyone(b) + multiset{NewPassenger(id, kind, startFloor, destFloor)}
        else Everyone(b)
  {
    if allocOk && startFloor != destFloor {
      var i := startFloor - 1;
      var f := b.floors[i];
      var p := NewPassenger(id, kind, startFloor, destFloor);
      WaitingBagUpdate(b.floors, i, f.(waiting := f.waiting + [p]));
      assert multiset(f.waiting + [p]) == multiset(f.waiting) + multiset{p};
      var r := AddPassenger(b, id, kind, startFloor, destFloor, allocOk).next;
      assert r.floors == b.floors[i := f.(waiting := f.waiting + [p])];
      assert WaitingBag(b.floors) + (multiset(f.waiting) + multiset{p}) == (WaitingBag(b.floors) + multiset{p}) + multiset(f.waiting);
      BagCancel(WaitingBag(r.floors), WaitingBag(b.floors) + multiset{p}, multiset(f.waiting));
      assert Everyone(r) == multiset(b.cabin) + (WaitingBag(b.floors) + multiset{p});
    }
  }

  /** `add_passenger` keeps the state well formed. */
  lemma AddPassengerPreservesWellFormed(b: Building, id: int, kind: int, startFloor: int, destFloor: int, allocOk: bool)
    requires WellFormed(b)
    requires allocOk && startFloor != destFloor ==> 1 <= startFloor <= FloorCount
    ensures WellFormed(AddPassenger(b, id, kind, startFloor, destFloor, allocOk).next)
  {
  }

  /**
   `elevator_init` after the thread is started: the setup followed by the two
   example requests (PART_TIME from 2 to 4, LAWYER from 1 to 3), whose return
   codes are ignored. `threadErr` is 0 when the thread starts and otherwise the
   negative error code `PTR_ERR` yields, which `elevator_init` returns.
   */
  function ModuleInit(threadErr: int, id1: int, allocOk1: bool, id2: int, allocOk2: bool): (r: Outcome)
    requires threadErr <= 0
    ensures r.status == threadErr
    ensures threadErr != 0 ==> r.next == Setup()
    ensures r.next.cabin == [] && r.next.currentFloor == 1 && |r.next.floors| == FloorCount
  {
    if threadErr != 0 then
      Outcome(Setup(), threadErr)
    else
      var s1 := AddPassenger(Setup(), id1, PartTime, 2, 4, allocOk1).next;
      Outcome(AddPassenger(s1, id2, Lawyer, 1, 3, allocOk2).next, 0)
  }

  /**
   After `elevator_init` the state is well formed, and exactly the example
   requests whose allocation succeeded are queued: the PART_TIME one on floor 2,
   the LAWYER one on floor 1.
   */
  lemma ModuleInitQueues(threadErr: int, id1: int, allocOk1: bool, id2: int, allocOk2: bool)
    requires threadErr <= 0
    ensures var b := ModuleInit(threadErr, id1, allocOk1, id2, allocOk2).next;
      && WellFormed(b)
      && (threadErr == 0 ==>
        && b.floors[1].waiting == (if allocOk1 then [Passenger(id1, PartTime, 1, 2, 4)] else [])
        && b.floors[0].waiting == (if allocOk2 then [Passenger(id2, Lawyer, 1, 1, 3)] else [])
        && b.floors[2].waiting == [] && b.floors[3].waiting == [] && b.floors[4].waiting == [])
  {
    if threadErr == 0 {
      var s0 := Setup();
      var s1 := AddPassenger(s0, id1, PartTime, 2, 4, allocOk1).next;
      AddPassengerPreservesWellFormed(s0, id1, PartTime, 2, 4, allocOk1);
      AddPassengerPreservesWellFormed(s1, id2, Lawyer, 1, 3, allocOk2);
    }
  }

  // ---------------------------------------------------------------------------
  // load_passenger / unload_passenger

  /** `load_passenger`: `list_add_tail` onto the cabin list. */
  function LoadPassenger(cabin: seq<Passenger>, p: Passenger): (r: seq<Passenger>)
    ensures |r| == |cabin| + 1 && r[..|cabin|] == cabin && r[|cabin|] == p
  {
    cabin + [p]
  }

  /** The loading loop: `load_passenger` for each waiting passenger in queue order. */
  function LoadAll(cabin: seq<Passenger>, waiting: seq<Passenger>): (r: seq<Passenger>)
    ensures r == cabin + waiting
    decreases |waiting|
  {
    if waiting == [] then cabin
    else
      assert cabin + waiting == LoadPassenger(cabin, waiting[0]) + waiting[1..];
      LoadAll(LoadPassenger(cabin, waiting[0]), waiting[1..])
  }

  /**
   The unloading loop: the occupants that stay aboard at `floor`, in their
   original order. The length bound is here only to keep verification cheap;
   what unloading means is stated by `UnloadMembers`, `UnloadAppend` and
   `UnloadPartition`.
   */
  function Unload(cabin: seq<Passenger>, floor: int): (r: seq<Passenger>)
    ensures |r| <= |cabin|
  {
    if cabin == [] then []
    else if cabin[0].destinationFloor == floor then Unload(cabin[1..], floor)
    else [cabin[0]] + Unload(cabin[1..], floor)
  }

  /**
   The occupants the unloading loop passes to `unload_passenger` at `floor`.
   The length bound is here only to keep verification cheap; membership is
   stated by `AlightingMembers`, the split with the cabin by `UnloadPartition`.
   */
  function Alighting(cabin: seq<Passenger>, floor: int): (r: seq<Passenger>)
    ensures |r| <= |cabin|
  {
    if cabin == [] then []
    else if cabin[0].destinationFloor == floor then [cabin[0]] + Alighting(cabin[1..], floor)
    else Alighting(cabin[1..], floor)
  }

  /** Exactly the occupants not bound for `floor` stay aboard. */
  lemma {:induction false} UnloadMembers(cabin: seq<Passenger>, floor: int)
    ensures forall p :: p in Unload(cabin, floor) <==> p in cabin && p.destinationFloor != floor
    decreases |cabin|
  {
    if cabin != [] {
      UnloadMembers(cabin[1..], floor);
      assert forall p :: p in cabin <==> p == cabin[0] || p in cabin[1..];
    }
  }

  /** Exactly the occupants bound for `floor` leave. */
  lemma {:induction false} AlightingMembers(cabin: seq<Passenger>, floor: int)
    ensures forall p :: p in Alighting(cabin, floor) <==> p in cabin && p.destinationFloor == floor
    decreases |cabin|
  {
    if cabin != [] {
      AlightingMembers(cabin[1..], floor);
      assert forall p :: p in cabin <==> p == cabin[0] || p in cabin[1..];
    }
  }

  /** Unloading keeps the relative order: it distributes over concatenation. */
  lemma {:induction false} UnloadAppend(a: seq<Passenger>, c: seq<Passenger>, floor: int)
    ensures Unload(a + c, floor) == Unload(a, floor) + Unload(c, floor)
    decreases |a|
  {
    if a == [] {
      assert a + c == c;
    } else {
      assert (a + c)[0] == a[0];
      assert (a + c)[1..] == a[1..] + c;
      UnloadAppend(a[1..], c, floor);
      if a[0].destinationFloor == floor {
        assert Unload(a + c, floor) == Unload(a[1..] + c, floor);
        assert Unload(a, floor) == Unload(a[1..], floor);
      } else {
        assert Unload(a + c, floor) == [a[0]] + Unload(a[1..] + c, floor);
        assert Unload(a, floor) == [a[0]] + Unload(a[1..], floor);
        assert [a[0]] + (Unload(a[1..], floor) + Unload(c, floor)) ==
               ([a[0]] + Unload(a[1..], floor)) + Unload(c, floor);
      }
    }
  }

  /** An occupant not bound for `floor` stays; one bound for it leaves. */
  lemma UnloadSingle(p: Passenger, floor: int)
    ensures Unload([p], floor) == if p.destinationFloor == floor then [] else [p]
  {
  }

  /** When nobody is bound for `floor`, unloading changes nothing. */
  lemma {:induction false} UnloadNoneBound(cabin: seq<Passenger>, floor: int)
    requires forall j :: 0 <= j < |cabin| ==> cabin[j].destinationFloor != floor
    ensures Unload(cabin, floor) == cabin
    decreases |cabin|
  {
    if cabin != [] {
      UnloadNoneBound(cabin[1..], floor);
    }
  }

  /** Unloading is idempotent: a second pass at the same floor finds nobody to unload. */
  lemma UnloadIdempotent(cabin: seq<Passenger>, floor: int)
    ensures Unload(Unload(cabin, floor), floor) == Unload(cabin, floor)
  {
    var r := Unload(cabin, floor);
    UnloadMembers(cabin, floor);
    forall j | 0 <= j < |r|
      ensures r[j].destinationFloor != floor
    {
      assert r[j] in r;
    }
    UnloadNoneBound(r, floor);
  }

  /** The occupants who stay and the occupants who leave are, together, exactly the cabin. */
  lemma {:induction false} UnloadPartition(cabin: seq<Passenger>, floor: int)
    ensures multiset(Unload(cabin, floor)) + multiset(Alighting(cabin, floor)) == multiset(cabin)
    decreases |cabin|
  {
    if cabin != [] {
      UnloadPartition(cabin[1..], floor);
      assert cabin == [cabin[0]] + cabin[1..];
    }
  }

  // ---------------------------------------------------------------------------
  // One iteration of elevator_schedule

  /** The precondition of one iteration: the current floor indexes `floors[]` whenever the cabin is occupied. */
  predicate Schedulable(b: Building) {
    |b.floors| == FloorCount && (|b.cabin| > 0 ==> 1 <= b.currentFloor <= FloorCount)
  }

  /**
   One iteration of the `elevator_schedule` loop. With an empty cabin it
   idles. Otherwise it notes the first occupant's start floor, unloads the
   occupants bound for the current floor, moves the current floor's queue to
   the tail of the cabin, and then goes to the noted floor.
   */
  function Step(b: Building): (r: Building)
    requires Schedulable(b)
    ensures |r.floors| == FloorCount
  {
    if |b.cabin| == 0 then b
    else
      var next := b.cabin[0].startFloor;
      var i := b.currentFloor - 1;
      var staying := Unload(b.cabin, b.currentFloor);
      Building(b.floors[i := b.floors[i].(waiting := [])], LoadAll(staying, b.floors[i].waiting), next)
  }

  /** The occupants one iteration delivers: none when idle. */
  function Delivered(b: Building): seq<Passenger> {
    if |b.cabin| == 0 then [] else Alighting(b.cabin, b.currentFloor)
  }

  /** With an empty cabin an iteration changes nothing: same floor, same queues. */
  lemma StepIdle(b: Building)
    requires |b.floors| == FloorCount && |b.cabin| == 0
    ensures Step(b) == b
    ensures Delivered(b) == []
  {
  }

  /**
   A non-idle iteration: the cabin becomes the occupants not bound for the
   current floor, in order, followed by that floor's queue in FIFO order; that
   queue empties, no other floor changes, and the cabin ends at the first
   occupant's start floor as read before unloading.
   */
  lemma StepBusy(b: Building)
    requires |b.floors| == FloorCount && |b.cabin| > 0 && 1 <= b.currentFloor <= FloorCount
    ensures var r := Step(b);
      && r.currentFloor == b.cabin[0].startFloor
      && r.cabin == Unload(b.cabin, b.currentFloor) + b.floors[b.currentFloor - 1].waiting
      && (forall j :: 0 <= j < |r.cabin| - |b.floors[b.currentFloor - 1].waiting| ==>
            r.cabin[j].destinationFloor != b.currentFloor)
      && r.floors[b.currentFloor - 1].waiting == []
      && r.floors[b.currentFloor - 1].number == b.floors[b.currentFloor - 1].number
      && forall i :: 0 <= i < FloorCount && i != b.currentFloor - 1 ==> r.floors[i] == b.floors[i]
  {
    var u := Unload(b.cabin, b.currentFloor);
    UnloadMembers(b.cabin, b.currentFloor);
    assert forall j :: 0 <= j < |u| ==> u[j] in u;
  }

  /** The bag of a concatenation is the sum of the bags. */
  lemma ConcatBag<T>(x: seq<T>, y: seq<T>)
    ensures multiset(x + y) == multiset(x) + multiset(y)
  {
  }

  /** Multiset bookkeeping for one iteration: `u + d` was the cabin, `f + w` the queues. */
  lemma BagShuffle<T>(u: multiset<T>, d: multiset<T>, c: multiset<T>, w: multiset<T>, f: multiset<T>, g: multiset<T>)
    requires u + d == c && f + w == g
    ensures ((u + w) + f) + d == c + g
  {
    assert ((u + w) + f) + d == (u + d) + (f + w);
  }

  /** Across one iteration no passenger is created or lost: only the delivered ones leave. */
  lemma StepConserves(b: Building)
    requires Schedulable(b)
    ensures Everyone(Step(b)) + multiset(Delivered(b)) == Everyone(b)
  {
    if |b.cabin| > 0 {
      var i := b.currentFloor - 1;
      var f := b.floors[i];
      var fs := b.floors[i := f.(waiting := [])];
      var u := Unload(b.cabin, b.currentFloor);
      var d := Alighting(b.cabin, b.currentFloor);
      assert Step(b) == Building(fs, u + f.waiting, b.cabin[0].startFloor);
      UnloadPartition(b.cabin, b.currentFloor);
      WaitingBagUpdate(b.floors, i, f.(waiting := []));
      ConcatBag(u, f.waiting);
      BagShuffle(multiset(u), multiset(d), multiset(b.cabin), multiset(f.waiting), WaitingBag(fs), WaitingBag(b.floors));
    }
  }

  /** Every iteration keeps the state well formed; in particular the current floor stays in 1..5. */
  lemma StepPreservesWellFormed(b: Building)
    requires WellFormed(b)
    ensures WellFormed(Step(b))
  {
    if |b.cabin| > 0 {
      var i := b.currentFloor - 1;
      var u := Unload(b.cabin, b.currentFloor);
      var w := b.floors[i].waiting;
      var r := Step(b);
      UnloadMembers(b.cabin, b.currentFloor);
      assert r.cabin == u + w;
      forall j | 0 <= j < |r.cabin|
        ensures Rider(r.cabin[j])
      {
        if j < |u| {
          assert u[j] in u;
          var k :| 0 <= k < |b.cabin| && b.cabin[k] == u[j];
        } else {
          assert r.cabin[j] == w[j - |u|];
        }
      }
      assert Rider(b.cabin[0]);
    }
  }

  /**
   `n` iterations of the scheduling loop. The run stops early at a state
   whose current floor is outside 1..5, where the source would index outside
   `floors[]`; from a well-formed state this never happens (see
   `StepsFromWellFormed`).
   */
  function Steps(b: Building, n: nat): (r: Building)
    requires |b.floors| == FloorCount
    ensures |r.floors| == FloorCount
    decreases n
  {
    if n == 0 || !Schedulable(b) then b else Steps(Step(b), n - 1)
  }

  /** From a well-formed state every iteration is defined, and every state reached is well formed. */
  lemma {:induction false} StepsFromWellFormed(b: Building, n: nat)
    requires WellFormed(b)
    ensures WellFormed(Steps(b, n))
    ensures n > 0 ==> Steps(b, n) == Steps(Step(b), n - 1)
    decreases n
  {
    if n > 0 {
      StepPreservesWellFormed(b);
      StepsFromWellFormed(Step(b), n - 1);
    }
  }

  /**
   Once the cabin is empty the loop idles forever: waiting passengers are
   never fetched, since the loop only loads while it already has occupants.
   */
  lemma {:induction false} EmptyCabinIdlesForever(b: Building, n: nat)
    requires |b.floors| == FloorCount && |b.cabin| == 0
    ensures Steps(b, n) == b
    decreases n
  {
    if n > 0 {
      EmptyCabinIdlesForever(b, n - 1);
    }
  }

  /** In particular, the requests queued by `elevator_init` are never served. */
  lemma InitialRequestsNeverServed(id1: int, allocOk1: bool, id2: int, allocOk2: bool, n: nat)
    ensures var b := ModuleInit(0, id1, allocOk1, id2, allocOk2).next;
      Steps(b, n) == b
  {
    EmptyCabinIdlesForever(ModuleInit(0, id1, allocOk1, id2, allocOk2).next, n);
  }
}
