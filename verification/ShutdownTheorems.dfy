/** What the stop command achieves in every run. */
module ShutdownTheorems {
  import opened Shared
  import opened Counting
  import opened SessionTable
  import opened Protocol
  import opened Structure
  import opened Exclusion
  import opened Registry
  import opened Floor
  import opened Yard
  import opened Accounts
  import opened Rejection
  import opened Shutdown
  import opened Programs
  import opened Safety
  import BeltTheorems

  /** No lost shutdown: once a stop scan has passed the slot of a truck that waits for a message, or
      has found the system running and is about to wait, or of an express process that waits, that
      process has `EndWork` in its queue; if it waits, it can therefore go on. This covers all
      races of the scan, which takes no lock, with logins, logouts and departures. */
  lemma NoLostShutdown(s: State, capacity: nat, t: int)
    requires Reachable(s, capacity) && t in s.procs && Committed(s.procs[t]) && s.procs[t].slot < s.sh.log.swept
    ensures EndWork in Queued(s.sh.queue, t)
    ensures s.procs[t].pc == At(TruckWait) || s.procs[t].pc == At(ExprWait) ==> Step(s, Act(t, Go)).Some?
  {
    hide Reachable, FloorOk, RegistryOk, AccountsOk, YardOk, RejectOk, ProcStep;
    ReachableInv(s, capacity);
    assert Told(s.sh, t, s.procs[t]);
    assert ProcOk(s.procs[t]);
    CommittedHasSlot(s.procs[t]);
    if s.procs[t].pc == At(TruckWait) || s.procs[t].pc == At(ExprWait) {
      ReceiveGoes(s.sh, t, s.procs[t]);
    }
  }

  lemma ReceiveGoes(s: Memory, pid: int, q: Proc)
    requires (q.pc == At(TruckWait) || q.pc == At(ExprWait)) && Queued(s.queue, pid) != []
    ensures ProcStep(s, pid, q, Go).Some?
  {
  }

  /** A completed scan has passed every slot, so every such process has its message. */
  lemma CompletedScanReachesAll(s: State, capacity: nat, t: int)
    requires Reachable(s, capacity) && s.sh.log.swept >= MAX_USERS_SESSIONS && t in s.procs && Committed(s.procs[t])
    ensures EndWork in Queued(s.sh.queue, t)
  {
    hide Reachable, FloorOk, AccountsOk, YardOk, RejectOk, StopOk, Stored, Busy, Place;
    ReachableInv(s, capacity);
    assert ProcOk(s.procs[t]) && Entered(s.sh.belt.users, t, s.procs[t]);
    NoLostShutdown(s, capacity, t);
  }

  /** `running` never becomes true again. */
  lemma StopIsFinal(s: State, l: Label)
    requires Step(s, l).Some?
    ensures Step(s, l).value.sh.running ==> s.sh.running
  {
    hide ProcStep;
    if l.Act? {
      StepStops(s.sh, l.pid, s.procs[l.pid], l.choice);
    }
  }

  lemma {:induction false} RunStopIsFinal(s: State, ls: seq<Label>)
    requires Exec(s, ls).Some?
    ensures Exec(s, ls).value.sh.running ==> s.sh.running
  {
    hide Step;
    if ls != [] {
      RunStopIsFinal(s, ls[..|ls| - 1]);
      StopIsFinal(Exec(s, ls[..|ls| - 1]).value, ls[|ls| - 1]);
    }
  }

  /** An `EndWork` message, queued or received, and a truck that has left its loop, up to and
      including its logout, are found only after the stop. */
  lemma EndWorkOnlyAfterStop(s: State, capacity: nat, p: int)
    requires Reachable(s, capacity)
    ensures EndWork in Queued(s.sh.queue, p) ==> !s.sh.running
    ensures p in s.procs && Stopping(Place(s.procs[p].pc)) ==> !s.sh.running
    ensures p in s.procs && s.procs[p].kind == Truck && Place(s.procs[p].pc) == WantBelt(Logout) ==> !s.sh.running
  {
    hide Reachable, BaseOk, FloorOk, RegistryOk, AccountsOk, YardOk, RejectOk;
    ReachableInv(s, capacity);
    if p in s.procs {
      assert StopFacts(s.sh, s.procs[p]) && ProgramFacts(s.sh, s.procs[p]);
    }
  }

  /** A truck is never stuck: once a stop scan is complete, one that has not exited can make a step, or waits for a mutex whose holder can. */
  lemma TruckNeverStuck(s: State, capacity: nat, t: int) returns (p: int, c: Choice)
    requires Reachable(s, capacity) && s.sh.log.swept >= MAX_USERS_SESSIONS
    requires t in s.procs && s.procs[t].kind == Truck && s.procs[t].pc != At(Exited)
    ensures p in s.procs && !c.Interrupt? && ProcStep(s.sh, p, s.procs[p], c).Some?
    ensures p == t || (Place(s.procs[t].pc).WantBelt? && HoldsBelt(s.procs[p].pc))
            || (Place(s.procs[t].pc).WantDock? && HoldsDock(s.procs[p].pc))
  {
    hide Reachable, ProcStep, FloorOk, RegistryOk, AccountsOk, YardOk, RejectOk, StopOk;
    ReachableInv(s, capacity);
    assert ProgramFacts(s.sh, s.procs[t]);
    p, c := t, Go;
    if !s.procs[t].pc.At? {
      c := BeltTheorems.HolderCanMove(s, capacity, t);
    } else if s.procs[t].pc.point.WantBelt? && s.sh.beltMutex == 0 {
      p := CountSome(s.procs, BeltHolder);
      c := BeltTheorems.HolderCanMove(s, capacity, p);
    } else if s.procs[t].pc.point.WantDock? && s.sh.dockMutex == 0 {
      p := CountSome(s.procs, DockHolder);
      c := BeltTheorems.HolderCanMove(s, capacity, p);
    } else {
      if s.procs[t].pc == At(TruckWait) {
        CompletedScanReachesAll(s, capacity, t);
      }
      TruckGoes(s.sh, t, s.procs[t]);
    }
  }

  lemma TruckGoes(s: Memory, pid: int, q: Proc)
    requires q.pc.At? && ProgramPC(Truck, q.pc) && !q.pc.point.Exited?
    requires q.pc.point.WantBelt? ==> s.beltMutex > 0
    requires q.pc.point.WantDock? ==> s.dockMutex > 0
    requires q.pc.point.TruckWait? ==> Queued(s.queue, pid) != []
    ensures ProcStep(s, pid, q, Go).Some?
  {
  }
}
