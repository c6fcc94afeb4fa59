/** What holds of the dock in every reachable state of the warehouse. */
module DockTheorems {
  import opened Shared
  import opened Counting
  import opened Docking
  import Ledger
  import opened Protocol
  import opened Structure
  import opened Exclusion
  import opened Floor
  import opened Registry
  import opened Yard
  import opened Accounts
  import opened Rejection
  import opened Shutdown
  import opened Programs
  import opened Safety

  /** A truck is at the dock exactly while one process is between docking and leaving, and the
      record carries that process's pid. */
  lemma DockIsOwned(s: State, capacity: nat)
    requires Reachable(s, capacity)
    ensures s.sh.dock.truck.isPresent <==> exists p :: p in s.procs && Docks(s.procs[p])
    ensures forall p :: p in s.procs && Docks(s.procs[p]) ==> s.sh.dock.truck.id == p
    ensures forall p, r :: p in s.procs && r in s.procs && Docks(s.procs[p]) && Docks(s.procs[r]) ==> p == r
  {
    hide Reachable, BaseOk, FloorOk, RegistryOk, AccountsOk, RejectOk, StopOk, PendingOk, Docks, Ledger.DockOk;
    ReachableInv(s, capacity);
  }

  /** Hence a leaving truck always finds its own pid in the record (the "identity theft" branch
      is dead), and the clean-up after the loop never finds the truck still docked. */
  lemma IdentityNeverStolen(s: State, capacity: nat, pid: int)
    requires Reachable(s, capacity) && pid in s.procs && s.procs[pid].pc.DoDock?
    ensures var op, t := s.procs[pid].pc.dop, s.procs[pid].pc.seenDock.truck;
      && (op.Depart? || op.Shutdown? ==> t.isPresent && t.id == pid)
      && (op.Cleanup? ==> !(t.isPresent && t.id == pid))
  {
    hide Reachable, FloorOk, RegistryOk, AccountsOk, RejectOk, StopOk, PendingOk, Ledger.DockOk;
    ReachableInv(s, capacity);
    assert Fresh(s.sh, s.procs[pid]);
  }

  /** Payload conservation: everything the dispatcher and Express ever put on a truck was carried
      by exactly one trip, in order, or is on the docked truck, whose record is the exact sum.
      `trucks_completed` counts the counted trips. A trip that was not counted carried nothing,
      or a single package of exactly 0.1 kg; what is lost is at most 0.1 kg per uncounted trip. */
  lemma PayloadConserved(s: State, capacity: nat)
    requires Reachable(s, capacity)
    ensures var d := s.sh.dock;
      && d.accepted == Ledger.Carried(d.trips) + d.cargo
      && d.completed == Ledger.Counted(d.trips)
      && Ledger.ItemWeight(d.accepted) == Ledger.TripWeight(d.trips, true) + Ledger.TripWeight(d.trips, false)
         + (if d.truck.isPresent then d.truck.currentWeight else 0.0)
      && Ledger.ItemVolume(d.accepted) == Ledger.TripVolume(d.trips, true) + Ledger.TripVolume(d.trips, false)
         + (if d.truck.isPresent then d.truck.currentVolume else 0.0)
      && Ledger.TripWeight(d.trips, false) <= 0.1 * (|d.trips| - d.completed) as real
      && (d.truck.isPresent ==>
            d.truck.currentWeight == Ledger.ItemWeight(d.cargo) && d.truck.currentVolume == Ledger.ItemVolume(d.cargo))
      && (!d.truck.isPresent ==> d.cargo == [])
      && forall i :: 0 <= i < |d.trips| && !d.trips[i].counted ==>
           var c := d.trips[i].cargo; c == [] || (|c| == 1 && c[0].id > 0 && c[0].weight == 0.1)
  {
    hide Reachable, BaseOk, FloorOk, RegistryOk, AccountsOk, RejectOk, StopOk, PendingOk, OwnerOk;
    ReachableInv(s, capacity);
    var d := s.sh.dock;
    forall i | 0 <= i < |d.trips| && !d.trips[i].counted
      ensures var c := d.trips[i].cargo; c == [] || (|c| == 1 && c[0].id > 0 && c[0].weight == 0.1)
    {
      Ledger.UncountedTripIsNearlyEmpty(d, i);
    }
    Ledger.WeightLeft(d.trips);
    Ledger.VolumeLeft(d.trips);
    Ledger.VolumeOfConcat(Ledger.Carried(d.trips), d.cargo);
    Ledger.WeightOfConcat(Ledger.Carried(d.trips), d.cargo);
  }

  /** The docked truck is never loaded beyond its limits by the two loaders together, and carries
      at most as many belt packages as its volume has room for, 154 in any case. */
  lemma TruckWithinLimits(s: State, capacity: nat)
    requires Reachable(s, capacity) && s.sh.dock.truck.isPresent
    ensures var t := s.sh.dock.truck;
      && 0.0 <= t.currentWeight <= t.maxWeight < 600.0 && 0.0 <= t.currentVolume <= t.maxVolume < 3.0
      && 0 <= t.currentLoad <= 154 && t.currentLoad as real * VOL_A <= t.maxVolume
  {
    hide Reachable, BaseOk, FloorOk, RegistryOk, AccountsOk, RejectOk, StopOk, PendingOk, OwnerOk;
    ReachableInv(s, capacity);
    var d := s.sh.dock;
    Ledger.LoadBound(d);
    forall it | it in d.cargo
      ensures it.weight >= 0.0
    {
      assert it in d.accepted;
    }
    Ledger.WeightNonNegative(d.cargo);
  }

  /** In a run in which no docking gets more than one express batch, a package is turned away by
      at most one docking. */
  lemma RejectedByAtMostOneTruck(s: State, capacity: nat, pid: int)
    requires Reachable(s, capacity) && pid in s.procs && Holding(s.procs[pid])
    ensures !s.sh.dock.crowded ==> |s.procs[pid].rejects| <= 1
  {
    hide Reachable, BaseOk, FloorOk, RegistryOk, AccountsOk, YardOk, StopOk;
    ReachableInv(s, capacity);
  }

  /** Once a truck has refused a package, has reached its package count, or has been called by a
      loader for any other reason, it will leave:
      with the dock mutex free it has a message in its queue or has already received one. */
  lemma DepartureIsPending(s: State, capacity: nat)
    requires Reachable(s, capacity) && s.sh.dockMutex == 1 && s.sh.dock.truck.isPresent
    requires
      || s.sh.dock.called
      || s.sh.dock.truck.currentLoad >= s.sh.dock.truck.maxLoad
      || exists p :: HeldSomewhere(s.procs, p) && s.sh.dock.dockings in s.procs[p].rejects
    ensures var t := s.sh.dock.truck.id;
      t in s.procs && (Queued(s.sh.queue, t) != [] || !Place(s.procs[t].pc).TruckWait?)
  {
    hide Reachable, FloorOk, RegistryOk, AccountsOk, StopOk, Docks, ProcOk, Holding;
    ReachableInv(s, capacity);
    assert s.sh.dock.called;
    var t := s.sh.dock.truck.id;
    assert Summoned(s, t);
    if Queued(s.sh.queue, t) == [] && Place(s.procs[t].pc).TruckWait? {
      var p :| Sends(s.procs, p, t);
      CountOne(s.procs, p, DockHolder);
    }
  }

  ghost predicate AllCounted(trips: seq<Ledger.Trip>) {
    forall i :: 0 <= i < |trips| ==> trips[i].counted
  }

  /** Trips change only when a truck leaves. */
  lemma TripsStay(s: Memory, pid: int, q: Proc, c: Choice, m: Move)
    requires ProcOk(q) && ProcStep(s, pid, q, c) == Some(m) && !(q.pc.DoDock? && (q.pc.dop.Shutdown? || q.pc.dop.Depart? || q.pc.dop.Cleanup?))
    requires Fresh(s, q)
    ensures m.sh.dock.trips == s.dock.trips
  {
    hide ProcOk, ProcStep;
    if q.pc.DoDock? {
      LoadTrips(s, pid, q, c, m);
    } else {
      ProcGuarded(s, pid, q, c, m);
      if m.sh.dock != s.dock {
        RelayTrips(s, pid, q, c, m);
      }
    }
  }

  lemma LoadTrips(s: Memory, pid: int, q: Proc, c: Choice, m: Move)
    requires q.pc.DoDock? && (q.pc.dop.Load? || q.pc.dop.Batch? || q.pc.dop.Claim?) && Fresh(s, q) && ProcStep(s, pid, q, c) == Some(m)
    ensures m.sh.dock.trips == s.dock.trips
  {
    hide TryLoad, BatchTaken, AddItems, Docked;
    match q.pc.dop
    case Load =>
    case Batch =>
    case Claim =>
  }

  lemma RelayTrips(s: Memory, pid: int, q: Proc, c: Choice, m: Move)
    requires HoldsDock(q.pc) && !q.pc.DoDock? && ProcStep(s, pid, q, c) == Some(m)
    ensures m.sh.dock == s.dock
  {
    hide Send;
    match q.pc
    case InDock(_) =>
    case SendDock(_, _) =>
    case UnlockDock(_) =>
  }

  lemma LeaveTrips(s: State, pid: int, c: Choice, m: Move)
    requires Inv(s) && pid in s.procs && ProcStep(s.sh, pid, s.procs[pid], c) == Some(m)
    requires s.procs[pid].pc.DoDock? && (s.procs[pid].pc.dop.Shutdown? || s.procs[pid].pc.dop.Depart? || s.procs[pid].pc.dop.Cleanup?)
    ensures m.sh.running ==>
      || m.sh.dock.trips == s.sh.dock.trips
      || m.sh.dock.trips == s.sh.dock.trips + [Ledger.Trip(s.sh.dock.truck, s.sh.dock.cargo, true)]
  {
    var q, op, d := s.procs[pid], s.procs[pid].pc.dop, s.sh.dock;
    hide Inv, OwnerOk, Ledger.DockOk, TruckBody, ProcOk;
    Current(s, pid);
    assert ProcStep(s.sh, pid, q, c) == TruckBody(s.sh, pid, q, op, d, c);
    hide ProcStep;
    TruckOccupancy(s, pid, op, c, m);
    if op.Depart? {
      Ledger.DepartKeeps(d, pid);
      DepartMove(s.sh, pid, q, c, m);
    } else if op.Shutdown? {
      ShutdownMove(s.sh, pid, q, c, m);
    }
  }

  lemma DepartMove(s: Memory, pid: int, q: Proc, c: Choice, m: Move)
    requires q.pc == DoDock(Depart, s.dock) && TruckBody(s, pid, q, Depart, s.dock, c) == Some(m)
    ensures m.sh.dock == Ledger.Depart(s.dock, pid)
  {
  }

  lemma ShutdownMove(s: Memory, pid: int, q: Proc, c: Choice, m: Move)
    requires q.pc == DoDock(Shutdown, s.dock) && TruckBody(s, pid, q, Shutdown, s.dock, c) == Some(m)
    ensures m.sh.running == s.running
  {
  }

  lemma Current(s: State, pid: int)
    requires Inv(s) && pid in s.procs
    ensures ProcOk(s.procs[pid]) && Fresh(s.sh, s.procs[pid]) && StopFacts(s.sh, s.procs[pid]) && OwnerOk(s)
    ensures Ledger.DockOk(s.sh.dock)
  {
    hide FloorOk, RegistryOk, AccountsOk, RejectOk, ProgramsOk, PendingOk, OwnerOk, Ledger.DockOk, ProcOk, StopFacts, Fresh;
  }

  lemma StepCounts(s: State, l: Label)
    requires Inv(s) && Step(s, l).Some? && (s.sh.running ==> AllCounted(s.sh.dock.trips))
    ensures Step(s, l).value.sh.running ==> AllCounted(Step(s, l).value.sh.dock.trips)
  {
    hide Inv, ProcStep, ProcOk, Fresh;
    if l.Act? {
      var q := s.procs[l.pid];
      Current(s, l.pid);
      var m := ProcStep(s.sh, l.pid, q, l.choice).value;
      StepStops(s.sh, l.pid, q, l.choice);
      if q.pc.DoDock? && (q.pc.dop.Shutdown? || q.pc.dop.Depart? || q.pc.dop.Cleanup?) {
        LeaveTrips(s, l.pid, l.choice, m);
      } else {
        TripsStay(s.sh, l.pid, q, l.choice, m);
      }
    }
  }

  lemma {:induction false} RunCounts(capacity: nat, ls: seq<Label>)
    requires capacity > 0 && Exec(Init(capacity), ls).Some?
    ensures var s := Exec(Init(capacity), ls).value; s.sh.running ==> AllCounted(s.sh.dock.trips)
  {
    hide Inv, Step;
    if ls != [] {
      RunCounts(capacity, ls[..|ls| - 1]);
      RunInv(capacity, ls[..|ls| - 1]);
      StepCounts(Exec(Init(capacity), ls[..|ls| - 1]).value, ls[|ls| - 1]);
    }
  }

  lemma {:induction false} CountedAll(trips: seq<Ledger.Trip>)
    requires AllCounted(trips)
    ensures Ledger.Counted(trips) == |trips|
  {
    if trips != [] {
      CountedAll(trips[..|trips| - 1]);
    }
  }

  /** While the system runs every departure is counted, also of an empty truck: `trucks_completed` is
      the number of all trips. Only the shutdown leaves trips out. */
  lemma EveryDepartureCounts(s: State, capacity: nat)
    requires Reachable(s, capacity) && s.sh.running
    ensures s.sh.dock.completed == |s.sh.dock.trips| && AllCounted(s.sh.dock.trips)
  {
    hide Exec;
    var ls :| Exec(Init(capacity), ls) == Some(s);
    RunCounts(capacity, ls);
    CountedAll(s.sh.dock.trips);
    hide Reachable, BaseOk, FloorOk, RegistryOk, AccountsOk, RejectOk, StopOk, ProgramsOk, PendingOk, OwnerOk;
    ReachableInv(s, capacity);
  }
}
