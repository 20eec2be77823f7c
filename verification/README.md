# Elevator kernel module: admission and scheduling core

A Dafny model of the two C files at the heart of an office-elevator Linux
kernel module, with proofs of the properties their logic implies.

- `syscalls.dfy` — module `Syscalls`, modelling `syscalls.c`. This is the
  request/admission state machine: the `elevator_active` flag and a cabin
  list (newest passenger first) with a cached passenger count and total
  weight.
  - `start_elevator`, `issue_request` and `stop_elevator` are pure transitions.
    Each returns the next state and the integer status the C function returns:
    - 0 for success;
    - 1 for invalid, already active or already stopped;
    - -1 for over the limit;
    - `-ENOMEM` (-12) for a failed allocation.
  - The `float` weights 1.0, 1.5, 2.0 and 0.5 and the limit 7 are counted
    exactly in half-units (2, 3, 4, 1 and 14). Every sum of at most five of
    them is exact in binary floating point, so the comparison is unchanged.
  - Proved:
    - each entry point's status is correct in both directions;
    - a refused call changes nothing;
    - every sequence of calls from `elevator_init` keeps the count equal to the
      list length, the total weight equal to the sum of the weights, and both
      within their limits;
    - no call ever removes a passenger;
    - start and stop undo each other.
- `scheduler.dfy` — module `Scheduler`, modelling `part3/src/elevator.c`.
  This is the floor-queue scheduler: five floors with FIFO queues of waiting
  passengers, a cabin list in boarding order, and a current floor.
  - `add_passenger` queues a request on its start floor. A request whose
    start and destination floors are equal is released at once.
  - One iteration of `elevator_schedule` either idles (empty cabin) or does
    the following: it notes the first occupant's start floor, unloads the
    occupants bound for the current floor, moves that floor's queue onto the
    tail of the cabin, and goes to the noted floor.
  - Proved:
    - `add_passenger` adds exactly the new passenger to the building;
    - each iteration conserves the multiset of passengers (queues plus cabin),
      minus exactly the ones delivered;
    - unloading is an order-preserving filter that partitions the cabin with
      the delivered passengers;
    - every iteration keeps the state well formed (the current floor stays
      in 1..5);
    - once the cabin is empty the loop idles forever. In particular, the two
      requests `elevator_init` queues are never served, because the loop only
      visits floors named by passengers already aboard.
  - The weight field is an `int`, so the value each `case` assigns is
    converted with its fraction discarded (C11 6.3.1.4). LAWYER's 1.5
    becomes 1 and VISITOR's 0.5 becomes 0.

## Model

| member | source | states |
|---|---|---|
| `Syscalls.TotalWeight` | syscalls.c:23 | every passenger weighs between 0.5 and 2.0, so n passengers weigh between n and 4n half-units |
| `Syscalls.Init` | syscalls.c:47-54 | module load leaves an empty list, exact zero counters within the limits, and the elevator already active |
| `Syscalls.Exit` | syscalls.c:56-64 | unload frees the whole list but leaves the flag and both counters as they were |
| `Syscalls.Start` | syscalls.c:66-75 | returns 1 exactly when already active and 0 exactly when inactive; afterwards the elevator is active and the passengers and counters are untouched |
| `Syscalls.Stop` | syscalls.c:112-124 | returns 1 exactly when inactive and 0 exactly when active; afterwards the elevator is inactive and no passenger is offloaded |
| `Syscalls.IssueRequest` | syscalls.c:77-110 | the status is one of 0, 1, -1, -ENOMEM; 1 iff inactive or an argument is out of range; -1 iff valid but over the weight or count limit; -ENOMEM iff admissible but the allocation fails; every failure leaves the state unchanged; success puts the new passenger at the head of the list and adds one passenger and its weight to the counters |
| `Syscalls.ApplyPreservesInvariants` | syscalls.c:86-105 | any single call keeps the count equal to the list length, the total equal to the sum of weights, and both within 5 and 7 |
| `Syscalls.RunPreservesInvariants` | syscalls.c:66-124 | any sequence of calls keeps both counters exact and within their limits |
| `Syscalls.ReachableStatesAreValid` | syscalls.c:47-54 | every state reachable from module load has exact counters, at most 5 passengers and at most weight 7 |
| `Syscalls.RunNeverRemovesPassengers` | syscalls.c:112-124 | no sequence of calls removes a passenger: the earlier list is always the tail of the later one |
| `Syscalls.StopUndoesStart` | syscalls.c:66-75 | starting an inactive elevator succeeds, and stopping it again restores the original state |
| `Syscalls.StartUndoesStop` | syscalls.c:112-124 | stopping an active elevator succeeds, and starting it again restores the original state |
| `Syscalls.StartAfterInitRefused` | syscalls.c:52-68 | since module load already activates the elevator, the first `start_elevator` returns 1 and changes nothing |
| `Syscalls.StoppedRefusesRequests` | syscalls.c:81-84 | after a stop every request is refused with 1, whatever its arguments, and changes nothing |
| `Syscalls.ExitLeavesCountersStale` | syscalls.c:56-64 | unloading a non-empty elevator leaves the cached counters inconsistent with the freed list |
| `Scheduler.WeightOf` | part3/src/elevator.c:120-136 | the stored weight is the value the type's `case` assigns, converted to `int` with its fraction discarded |
| `Scheduler.WeightTable` | part3/src/elevator.c:120-136 | the stored weights are PART_TIME 1, LAWYER 1, BOSS 2, VISITOR 0, and 1 for any other type |
| `Scheduler.Setup` | part3/src/elevator.c:159-168 | the initial state is well formed: floors 1..5 with empty queues, an empty cabin at floor 1, nobody in the building |
| `Scheduler.ClearFloors` | part3/src/elevator.c:196-203 | emptying every floor's queue keeps the floors and leaves nobody waiting |
| `Scheduler.Exit` | part3/src/elevator.c:184-206 | teardown unloads every occupant and frees every waiting passenger, leaving a well-formed, empty building |
| `Scheduler.AddPassenger` | part3/src/elevator.c:110-154 | a failed allocation returns -ENOMEM and changes nothing; otherwise the result is 0; a same-floor request changes nothing; any other request appends the new passenger to the tail of its start floor's queue and changes nothing else |
| `Scheduler.AddPassengerConserves` | part3/src/elevator.c:141-151 | a queued request adds exactly the new passenger to the multiset of everyone in the building; every other outcome adds nobody |
| `Scheduler.AddPassengerPreservesWellFormed` | part3/src/elevator.c:146-151 | queueing on a floor in 1..5 keeps every queue holding only passengers who start there and want another floor |
| `Scheduler.ModuleInit` | part3/src/elevator.c:156-182 | module load returns the thread error if the thread fails, else 0; the cabin starts empty at floor 1 |
| `Scheduler.ModuleInitQueues` | part3/src/elevator.c:159-179 | after module load the state is well formed, and exactly the example requests whose allocation succeeded are queued: PART_TIME 2→4 on floor 2, LAWYER 1→3 on floor 1 |
| `Scheduler.LoadPassenger` | part3/src/elevator.c:48-55 | loading puts the passenger at the tail of the cabin and keeps everyone before it |
| `Scheduler.LoadAll` | part3/src/elevator.c:95-101 | the loading loop appends the floor's whole queue to the cabin in FIFO order |
| `Scheduler.Unload` | part3/src/elevator.c:85-93 | unloading never adds an occupant: the cabin can only shrink |
| `Scheduler.Alighting` | part3/src/elevator.c:57-66 | the passengers released at a floor are never more than were aboard |
| `Scheduler.UnloadMembers` | part3/src/elevator.c:85-93 | a passenger stays aboard after unloading at a floor iff it was aboard and is not bound for that floor |
| `Scheduler.AlightingMembers` | part3/src/elevator.c:85-93 | a passenger is unloaded at a floor iff it was aboard and is bound for that floor |
| `Scheduler.UnloadPartition` | part3/src/elevator.c:85-93 | the passengers who stay and the passengers who leave together make up exactly the cabin |
| `Scheduler.UnloadAppend` | part3/src/elevator.c:87-92 | unloading keeps the relative order of those who stay: it distributes over concatenation |
| `Scheduler.UnloadSingle` | part3/src/elevator.c:88-91 | a single occupant leaves iff its destination is the current floor |
| `Scheduler.UnloadNoneBound` | part3/src/elevator.c:87-92 | when nobody aboard is bound for the floor, unloading changes nothing |
| `Scheduler.UnloadIdempotent` | part3/src/elevator.c:87-92 | a second unloading pass at the same floor removes nobody |
| `Scheduler.Step` | part3/src/elevator.c:69-105 | an iteration keeps exactly five floors |
| `Scheduler.StepIdle` | part3/src/elevator.c:74-78 | with an empty cabin an iteration changes nothing and delivers nobody |
| `Scheduler.StepBusy` | part3/src/elevator.c:80-104 | with occupants, an iteration ends at the first occupant's original start floor; the cabin becomes the occupants not bound for the current floor, in order, followed by that floor's queue; nobody left from before is bound for that floor; its queue empties and no other floor changes |
| `Scheduler.StepConserves` | part3/src/elevator.c:85-101 | across one iteration the multiset of queued and aboard passengers, plus those delivered, equals what it was before |
| `Scheduler.StepPreservesWellFormed` | part3/src/elevator.c:69-105 | every iteration keeps the state well formed; in particular the next floor is a start floor in 1..5 |
| `Scheduler.Steps` | part3/src/elevator.c:69-105 | any number of iterations keeps exactly five floors |
| `Scheduler.StepsFromWellFormed` | part3/src/elevator.c:69-105 | from a well-formed state every iteration is defined and every state reached is well formed |
| `Scheduler.EmptyCabinIdlesForever` | part3/src/elevator.c:73-78 | once the cabin is empty, no number of iterations changes anything: waiting passengers are never fetched |
| `Scheduler.InitialRequestsNeverServed` | part3/src/elevator.c:177-179 | the two requests queued at module load stay queued forever |

## Left out

- Concurrency is not modelled: the mutexes, the `elevator_thread` kthread, the wait queue, `msleep`, `wake_up_interruptible` and `kthread_stop`. Each call and each loop iteration takes effect atomically.
- Two hangs in `part3/src/elevator.c` that need no race are not modelled. The model gives the intended loop body and teardown, which the code as written never reaches:
  - the loop condition `!kthread_stop(elevator_thread)` (part3/src/elevator.c:69) runs inside the thread itself, which then waits for its own exit, so no iteration runs and the `kthread_stop` in `elevator_exit` (:185) hangs too;
  - `unload_passenger` takes `elevator.lock` (:61) while its callers already hold it (:86, :189), a self-deadlock on any actual unload.
- Logging (`printk`, `pr_info`, `pr_err`) and module registration (`module_init`, `module_exit` and the `MODULE_*` macros) are left out.
- `kmalloc` success and the `kthread_run` error code are not modelled. Both become inputs: `allocOk` and `threadErr`.
- `prandom_u32` becomes the `id` parameter.
- The list-manipulation hazards in `elevator_schedule` are not modelled. It deletes from the cabin list while walking it with a non-`_safe` iterator. It links a floor's nodes onto the cabin list without unlinking them from the floor. The model follows the evident intent instead: unloading is an order-preserving filter, and loading moves the whole queue.
- The same-floor case of `add_passenger` is not modelled at the pointer level. It calls `list_del` on a node in no list and then frees it. This is modelled as "no change, returns 0".
- Floating point is not modelled: the `float` weights of `syscalls.c` are exact half-units.
- `MAX_PASSENGERS` and `MAX_WEIGHT` are not modelled for `part3/src/elevator.c`, because that file defines them and never uses them. Its scheduler enforces no capacity limits.
- `my_timer.c`, `part2/src/my_timer.c` and `src/part1.c` are not part of this model.
- Scheduler.Steps: the run stops early at a state where the current floor cannot index `floors[]`. From a well-formed state this never happens (`Scheduler.StepsFromWellFormed`).
- Scheduler.Unload: its own contract only bounds the length. Membership is stated by `Scheduler.UnloadMembers`, order by `Scheduler.UnloadAppend`, and the split with the delivered passengers by `Scheduler.UnloadPartition`.
- Scheduler.Alighting: its own contract only bounds the length. Membership is stated by `Scheduler.AlightingMembers`.
- Scheduler.Step: its own contract only fixes the number of floors. What an iteration does is stated by `Scheduler.StepIdle`, `Scheduler.StepBusy` and `Scheduler.StepConserves`.
- Scheduler.StepConserves: conservation is proved for one iteration only. Over several iterations it follows by chaining, but that chain is not stated as a lemma.
- Scheduler.ModuleInit: its own contract gives the status and the cabin. The queue contents and well-formedness are in `Scheduler.ModuleInitQueues`.
