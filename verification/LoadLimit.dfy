/** The limit on the number of packages. The dispatcher looks at `max_load` only after loading
    (include/Dispatcher.h:107-121), and a truck that has been told to leave stays until it reads its
    message; how many packages it can get meanwhile depends on its volume alone. */
module LoadLimit {
  import opened Shared
  import opened SessionTable
  import opened Docking
  import BeltRing
  import Ledger
  import opened Protocol
  import opened Runs
  import DockTheorems

  /** The lightest and smallest package. */
  const TINY := Package(0, 1, TypeA, 0.1, VOL_A)

  /** The record of truck 3 with `n` packages like `p`. */
  function Carrying(p: Package, n: nat, maxWeight: real, maxVolume: real): TruckState {
    TruckState(true, 3, n, 100, n as real * p.volume, n as real * p.weight, maxWeight, maxVolume)
  }

  /** Worker 1 and dispatcher 2 at the heads of their loops, the belt empty, and truck 3 at the dock
      with `n` packages like `p`, the first truck ever, waiting for a message. */
  ghost predicate Crew(s: State, capacity: nat, p: Package, n: nat, maxWeight: real, maxVolume: real) {
    && Working(s, capacity, 1) && Stands(s, capacity, 2, DispHead) && Stands(s, capacity, 3, TruckWait)
    && s.sh.running && s.sh.empty == capacity && s.sh.full == 0 && s.sh.belt.ring.count == 0
    && s.sh.dock.truck == Carrying(p, n, maxWeight, maxVolume) && s.sh.dock.dockings == 1
    && s.sh.dock.trips == [] && s.sh.dock.completed == 0 && |s.sh.dock.cargo| == n
    && s.procs[2].pkg == [] && s.procs[3].kind == Truck && s.procs.Keys == {1, 2, 3}
  }

  /** Worker and dispatcher log in. */
  lemma HireTwo(capacity: nat) returns (s: State, i: int, j: int)
    requires capacity > 0
    ensures Calm(s, capacity) && i >= 0 && j >= 0 && |s.sh.belt.users| == MAX_USERS_SESSIONS && FreeFrom(s.sh.belt.users, 2)
    ensures s.procs == map[1 := Joined(Worker, "Worker_1", {Operator}, i), 2 := Joined(Dispatcher, DISPATCHER_NAME, {Operator}, j)]
    ensures s.sh == Init(capacity).sh.(belt := Init(capacity).sh.belt.(users := s.sh.belt.users))
  {
    StartCalm(capacity);
    StoredApart("Worker_1", DISPATCHER_NAME);
    hide Calm, Stored;
    s, i := Join(Init(capacity), capacity, 1, Worker, "Worker_1", {Operator}, 0);
    assert s.procs == map[1 := Joined(Worker, "Worker_1", {Operator}, i)];
    s, j := Join(s, capacity, 2, Dispatcher, DISPATCHER_NAME, {Operator}, 1);
  }

  /** So does the truck. */
  lemma HireThree(capacity: nat) returns (s: State, i: int, j: int, k: int)
    requires capacity > 0
    ensures Calm(s, capacity) && i >= 0 && j >= 0 && k >= 0
    ensures s.procs == map[1 := Joined(Worker, "Worker_1", {Operator}, i), 2 := Joined(Dispatcher, DISPATCHER_NAME, {Operator}, j),
                           3 := Joined(Truck, "Truck_1", {Operator}, k)]
    ensures s.sh == Init(capacity).sh.(belt := Init(capacity).sh.belt.(users := s.sh.belt.users))
  {
    StoredApart("Worker_1", "Truck_1");
    StoredApart(DISPATCHER_NAME, "Truck_1");
    hide Calm, Stored, Init;
    s, i, j := HireTwo(capacity);
    assert forall p :: p in s.procs ==> p == 1 || p == 2;
    s, k := Join(s, capacity, 3, Truck, "Truck_1", {Operator}, 2);
  }

  lemma Assemble(capacity: nat, p: Package, maxWeight: real, maxVolume: real) returns (s: State)
    requires capacity > 0 && SpecsInRange(maxWeight, maxVolume)
    ensures Crew(s, capacity, p, 0, maxWeight, maxVolume) && s.sh.queue == map[]
  {
    hide Calm, Stored, SpecsInRange;
    var i, j, k;
    s, i, j, k := HireThree(capacity);
    s := SignUp(s, capacity, 1);
    s := DockAt(s, capacity, 3, maxWeight, maxVolume);
  }

  /** A package that is put on an empty belt is what the next pop returns. */
  lemma PushThenPop(r: BeltRing.Ring, p: Package)
    requires BeltRing.RingOk(r) && r.count == 0
    ensures var r' := BeltRing.Push(r, p).0;
      && BeltRing.RingOk(r') && r'.count == 1
      && BeltRing.Pop(r').1 == p.(id := r.total + 1) && BeltRing.Pop(r').0.count == 0
  {
    BeltRing.PushEnqueues(r, p);
    BeltRing.PopDequeues(BeltRing.Push(r, p).0);
  }

  /** One more package goes from the worker over the belt to the truck. */
  lemma Deliver(s: State, capacity: nat, p: Package, n: nat, maxWeight: real, maxVolume: real) returns (s': State)
    requires Crew(s, capacity, p, n, maxWeight, maxVolume) && WorkerMade(p)
    requires (n + 1) as real * p.weight <= maxWeight && (n + 1) as real * p.volume <= maxVolume
    ensures Crew(s', capacity, p, n + 1, maxWeight, maxVolume)
    ensures s'.sh.queue ==
      if LimitReached(Carrying(p, n + 1, maxWeight, maxVolume)) then Send(s.sh.queue, 3, Departure) else s.sh.queue
  {
    assert capacity > 0;
    hide Calm, WorkerMade, BeltRing.RingOk, BeltRing.Push, BeltRing.Pop, Ledger.LoadPackage, Send, LimitReached;
    var r := s.sh.belt.ring;
    s' := Produce(s, capacity, 1, p);
    PushThenPop(r, p);
    var p' := p.(id := r.total + 1);
    s' := Fetch(s', capacity, 2, p');
    OneMore(s.sh.dock, p, p', n, maxWeight, maxVolume);
    s' := LoadOn(s', capacity, 2, p');
  }

  lemma OneMore(d: Ledger.Dock, p: Package, p': Package, n: nat, maxWeight: real, maxVolume: real)
    requires d.truck == Carrying(p, n, maxWeight, maxVolume) && p'.weight == p.weight && p'.volume == p.volume
    requires (n + 1) as real * p.weight <= maxWeight && (n + 1) as real * p.volume <= maxVolume
    ensures var (d', a) := Ledger.LoadPackage(d, p');
      && a == Loaded(LimitReached(Carrying(p, n + 1, maxWeight, maxVolume)))
      && d'.truck == Carrying(p, n + 1, maxWeight, maxVolume)
      && d'.trips == d.trips && d'.completed == d.completed && d'.dockings == d.dockings && |d'.cargo| == |d.cargo| + 1
  {
    assert (n + 1) as real * p.weight == n as real * p.weight + p.weight;
    assert (n + 1) as real * p.volume == n as real * p.volume + p.volume;
  }

  lemma {:induction false} Fill(capacity: nat, n: nat, maxWeight: real, maxVolume: real) returns (s: State)
    requires capacity > 0 && SpecsInRange(maxWeight, maxVolume) && n as real * VOL_A <= maxVolume
    ensures Crew(s, capacity, TINY, n, maxWeight, maxVolume)
  {
    if n == 0 {
      s := Assemble(capacity, TINY, maxWeight, maxVolume);
    } else {
      hide Crew;
      s := Fill(capacity, n - 1, maxWeight, maxVolume);
      s := Deliver(s, capacity, TINY, n - 1, maxWeight, maxVolume);
    }
  }

  /** A truck with these limits is at the dock with `n` belt packages. */
  ghost predicate DockedWith(s: State, maxWeight: real, maxVolume: real, n: int) {
    var t := s.sh.dock.truck;
    t.isPresent && t.maxWeight == maxWeight && t.maxVolume == maxVolume && t.currentLoad == n
  }

  /** Exactly the package counts that the volume allows do occur. */
  lemma LoadOccursExactlyWhen(capacity: nat, maxWeight: real, maxVolume: real, n: nat)
    requires capacity > 0 && SpecsInRange(maxWeight, maxVolume)
    ensures (exists s :: Reachable(s, capacity) && DockedWith(s, maxWeight, maxVolume, n)) <==> n as real * VOL_A <= maxVolume
  {
    hide Reachable;
    if n as real * VOL_A <= maxVolume {
      var s := Fill(capacity, n, maxWeight, maxVolume);
      CalmReaches(s, capacity);
      assert DockedWith(s, maxWeight, maxVolume, n);
    }
    forall s | Reachable(s, capacity) && DockedWith(s, maxWeight, maxVolume, n)
      ensures n as real * VOL_A <= maxVolume
    {
      DockTheorems.TruckWithinLimits(s, capacity);
    }
  }

  /** The limit of 100 packages is kept in all runs exactly by trucks without room for 101 of the
      smallest packages. */
  lemma MaxLoadKeptExactlyWhen(capacity: nat, maxWeight: real, maxVolume: real)
    requires capacity > 0 && SpecsInRange(maxWeight, maxVolume)
    ensures (forall s, n :: Reachable(s, capacity) && DockedWith(s, maxWeight, maxVolume, n) ==> n <= 100)
            <==> maxVolume < 101.0 * VOL_A
  {
    hide Reachable, DockedWith;
    if maxVolume >= 101.0 * VOL_A {
      LoadOccursExactlyWhen(capacity, maxWeight, maxVolume, 101);
    } else {
      forall s, n | Reachable(s, capacity) && DockedWith(s, maxWeight, maxVolume, n)
        ensures n <= 100
      {
        if n > 100 {
          LoadOccursExactlyWhen(capacity, maxWeight, maxVolume, n);
        }
      }
    }
  }
}
