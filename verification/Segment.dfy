/** The shared-memory segment and the message queue as objects (include/Shared.h:328-347,
    include/Manager.h). The controllers below change them in place; each method is tied to the
    function on values that the transition system uses for the same critical section. */
module Segment {
  import opened Shared
  import BeltRing
  import Protocol

  class SharedState {
    const belt: array<Package>
    const users: array<UserSession>
    var head: int
    var tail: int
    var workers: int
    var items: int
    var beltWeight: real
    var running: bool
    var completed: int
    var total: int
    var dockTruck: TruckState

    ghost predicate Valid()
      reads this
    {
      0 <= head < belt.Length && 0 <= tail < belt.Length && users.Length == MAX_USERS_SESSIONS
    }

    ghost function Ring(): BeltRing.Ring
      reads this, belt
    {
      BeltRing.Ring(belt[..], head, tail, items, beltWeight, total)
    }

    /** The belt as the transition system sees it. */
    ghost function Floor(): Protocol.Belt
      reads this, belt, users
    {
      Protocol.Belt(Ring(), workers, users[..])
    }

    /** What the owner of the segment sets up: the initial state of the transition system. */
    constructor (capacity: nat)
      requires capacity > 0
      ensures Valid() && fresh(belt) && fresh(users)
      ensures Floor() == Protocol.Init(capacity).sh.belt
      ensures dockTruck == Protocol.Init(capacity).sh.dock.truck && completed == Protocol.Init(capacity).sh.dock.completed
      ensures running == Protocol.Init(capacity).sh.running
    {
      belt := new Package[capacity](_ => ZERO_PACKAGE);
      users := new UserSession[MAX_USERS_SESSIONS](_ => ZERO_SESSION);
      head, tail, workers, items, total, completed := 0, 0, 0, 0, 0, 0;
      beltWeight := 0.0;
      dockTruck := ZERO_TRUCK;
      running := true;
      new;
      assert belt[..] == seq(capacity, _ => ZERO_PACKAGE);
      assert users[..] == seq(MAX_USERS_SESSIONS, _ => ZERO_SESSION);
    }
  }

  class MessageQueue {
    var queue: map<int, seq<Signal>>

    constructor ()
      ensures queue == map[]
    {
      queue := map[];
    }

    /** `msgsnd`: appended to the messages of the receiver's type; a type must be positive. */
    method SendSignal(to: int, sig: Signal)
      modifies this
      ensures queue == Protocol.Send(old(queue), to, sig)
    {
      if to > 0 {
        var waiting := if to in queue then queue[to] else [];
        queue := queue[to := waiting + [sig]];
      }
    }

    /** `msgrcv`, with or without blocking: the oldest message of the receiver's type. None
        stands for a call that blocks, or fails under `IPC_NOWAIT`; nothing is taken then. */
    method Receive(pid: int) returns (sig: Option<Signal>)
      modifies this
      ensures sig.None? <==> Protocol.Queued(old(queue), pid) == []
      ensures sig.None? ==> queue == old(queue)
      ensures sig.Some? ==> [sig.value] + Protocol.Queued(queue, pid) == Protocol.Queued(old(queue), pid)
      ensures forall p :: p != pid ==> Protocol.Queued(queue, p) == Protocol.Queued(old(queue), p)
    {
      if pid in queue && queue[pid] != [] {
        sig := Some(queue[pid][0]);
        queue := queue[pid := queue[pid][1..]];
      } else {
        sig := None;
      }
    }
  }
}
