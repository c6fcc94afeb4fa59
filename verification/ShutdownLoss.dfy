/** The payload that is not counted at shutdown, although the comments in the source say that every
    payload is delivered: exactly when it happens, and that it does. */
module ShutdownLoss {
  import opened Shared
  import Ledger
  import opened Protocol
  import opened Structure
  import opened Floor
  import opened Registry
  import opened Yard
  import opened Accounts
  import opened Rejection
  import opened Shutdown
  import opened Programs
  import opened Safety
  import opened Paths
  import opened Runs
  import DockTheorems
  import LoadLimit

  /** At shutdown a truck is not counted exactly if its record shows an empty truck, or a single
      package of 0.1 kg, which is then lost. */
  lemma ShutdownUncountedExactlyWhen(s: State, capacity: nat, pid: int, c: Choice)
    requires Reachable(s, capacity) && pid in s.procs && s.procs[pid].pc.DoDock? && s.procs[pid].pc.dop.Shutdown?
    ensures var t := s.sh.dock.truck;
      var m := ProcStep(s.sh, pid, s.procs[pid], c);
      && m.Some?
      && (m.value.sh.dock.completed == s.sh.dock.completed <==>
            (t.currentLoad == 0 && t.currentWeight == 0.0) || (t.currentLoad == 1 && t.currentWeight == 0.1))
  {
    hide Reachable, FloorOk, RegistryOk, AccountsOk, RejectOk, StopOk, ProgramsOk, PendingOk, OwnerOk, Ledger.DockOk, Ledger.Shutdown;
    DockTheorems.IdentityNeverStolen(s, capacity, pid);
    ReachableInv(s, capacity);
    assert Fresh(s.sh, s.procs[pid]);
    Ledger.LossByRecord(s.sh.dock, pid);
  }

  /** From a stopped system, a truck whose wait is interrupted by the master's signal leaves. */
  lemma LeaveStopped(s: State, capacity: nat, t: int) returns (s': State)
    requires Reachable(s, capacity) && t in s.procs && s.procs[t].pc == At(TruckWait)
    requires !s.sh.running && s.sh.dockMutex == 1
    ensures Reachable(s', capacity) && s'.sh.dock == Ledger.Shutdown(s.sh.dock, t)
  {
    hide Reachable, Path, Ledger.Shutdown;
    var m0 := Move(s.sh, s.procs[t].(pc := At(TruckGot(NoSignal))));
    Extend(s, capacity, Act(t, Interrupt));
    var s0 := After(s, t, m0);
    Stay(s0);
    var m1 := Move(s.sh, s.procs[t].(pc := At(WantDock(Shutdown))));
    Go1(s0, s0, t, Go, m1);
    var s1 := After(s0, t, m1);
    var m := TruckBody(s1.sh.(dockMutex := 0), t, m1.q.(pc := DoDock(Shutdown, s1.sh.dock)), Shutdown, s1.sh.dock, Go).value;
    DockSection(s0, s1, t, Shutdown, Go, m, WantDock(Cleanup));
    s' := After(s1, t, Move(m.sh.(dockMutex := 1), m.q.(pc := At(WantDock(Cleanup)))));
    PathReaches(s0, s', capacity);
  }

  /** Such a loss does happen, with a belt of any size: the package was created, loaded and taken
      away, and no truck counts as completed. */
  lemma LossHappens(capacity: nat) returns (s: State)
    requires capacity > 0
    ensures Reachable(s, capacity) && s.sh.dock.completed == 0 && |s.sh.dock.trips| == 1
    ensures var t := s.sh.dock.trips[0]; !t.counted && t.truck.currentLoad == 1 && t.truck.currentWeight == 0.1 && |t.cargo| == 1
  {
    s := LoadLimit.Assemble(capacity, LoadLimit.TINY, 200.0, 1.0);
    s := LoadLimit.Deliver(s, capacity, LoadLimit.TINY, 0, 200.0, 1.0);
    CalmReaches(s, capacity);
    hide Reachable, Path;
    Extend(s, capacity, Halt);
    s := LeaveStopped(s.(sh := s.sh.(running := false)), capacity, 3);
  }
}
