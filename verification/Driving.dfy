/** Driving chosen processes forward in an arbitrary reachable state, to show what can still happen
    from there. */
module Driving {
  import opened Shared
  import opened Counting
  import opened SessionTable
  import BeltRing
  import Ledger
  import opened Protocol
  import opened Structure
  import opened Exclusion
  import opened Floor
  import opened Registry
  import opened Yard
  import opened Accounts
  import opened Rejection
  import opened Shutdown
  import opened Programs
  import opened Safety
  import opened Paths
  import BeltTheorems

  /** A reachable state on a path from `a`. */
  ghost predicate On(a: State, s: State, capacity: nat) {
    Path(a, s) && Reachable(s, capacity)
  }

  lemma Move1(a: State, s: State, capacity: nat, pid: int, c: Choice, m: Move)
    requires On(a, s, capacity) && pid in s.procs && ProcStep(s.sh, pid, s.procs[pid], c) == Some(m) && !c.Interrupt?
    ensures On(a, After(s, pid, m), capacity)
  {
    hide Path, Reachable, ProcStep;
    Go1(a, s, pid, c, m);
    Extend(s, capacity, Act(pid, c));
  }

  /** What is left of a critical section. */
  function SectionRank(pc: PC): nat {
    match pc
    case At(_) => 0
    case InBelt(_) => 6
    case DoBelt(_, _) => 5
    case LoginMark(_) => 4
    case LoginName(_) => 3
    case LoginPid(_) => 2
    case UnlockBelt(_) => 1
    case InDock(_) => 4
    case DoDock(_, _) => 3
    case SendDock(_, _) => 2
    case UnlockDock(_) => 1
  }

  /** The section has done its work. */
  predicate Leaving(pc: PC) {
    pc.At? || pc.UnlockBelt? || pc.SendDock? || pc.UnlockDock?
  }

  /** The semaphores and flags that critical sections leave alone. */
  predicate SameTokens(s: Memory, s': Memory) {
    && s'.empty == s.empty && s'.full == s.full && s'.running == s.running
    && s'.log.emptyInterrupts == s.log.emptyInterrupts && s'.log.fullInterrupts == s.log.fullInterrupts
  }

  /** A step inside a critical section; only a successful pop takes a package off the belt. */
  predicate Inside(s: Memory, q: Proc, m: Move) {
    && SectionRank(m.q.pc) < SectionRank(q.pc) && SameTokens(s, m.sh)
    && (Leaving(q.pc) ==> Leaving(m.q.pc) && Place(m.q.pc) == Place(q.pc))
    && (m.sh.belt.ring.count >= s.belt.ring.count || m.q.pc == UnlockBelt(FreeEmpty))
  }

  lemma SessionInside(s: Memory, pid: int, q: Proc, op: BeltOp, v: Belt, m: Move)
    requires q.pc == DoBelt(op, v) && SessionBody(s, pid, q, op, v.users) == Some(m)
    ensures Inside(s, q, m)
  {
    hide LoginSlot;
    match op
    case Login =>
    case Logout =>
    case Spawn =>
    case Finish =>
    case _ =>
  }

  lemma FloorInside(s: Memory, q: Proc, op: BeltOp, m: Move)
    requires q.pc == DoBelt(op, s.belt) && FloorBody(s, q, op, s.belt) == Some(m)
    ensures Inside(s, q, m)
  {
    match op
    case Register =>
    case Unregister =>
    case Push =>
    case Pop =>
    case _ =>
  }

  lemma DockInside(s: Memory, pid: int, q: Proc, op: DockOp, d: Ledger.Dock, c: Choice, m: Move)
    requires q.pc == DoDock(op, d) && (LoaderBody(s, q, op, d, c) == Some(m) || TruckBody(s, pid, q, op, d, c) == Some(m))
    ensures Inside(s, q, m)
  {
    hide Ledger.LoadPackage, Ledger.LoadBatch, Ledger.Claim, Ledger.Shutdown, Ledger.Depart, Ledger.Cleanup;
    match op
    case Load =>
    case Batch =>
    case _ =>
  }

  lemma LoginInside(s: Memory, pid: int, q: Proc, m: Move)
    requires LoginStage(s, pid, q) == Some(m)
    ensures Inside(s, q, m)
  {
    match q.pc
    case LoginMark(_) =>
    case LoginName(_) =>
    case LoginPid(_) =>
    case _ =>
  }

  lemma RelayInside(s: Memory, q: Proc, m: Move)
    requires RelayStep(s, q) == Some(m)
    ensures Inside(s, q, m)
  {
    match q.pc
    case InBelt(_) =>
    case UnlockBelt(_) =>
    case InDock(_) =>
    case SendDock(_, _) =>
    case UnlockDock(_) =>
    case _ =>
  }

  lemma HoldInside(s: Memory, pid: int, q: Proc, c: Choice, m: Move)
    requires !q.pc.At? && Fresh(s, q) && ProcStep(s, pid, q, c) == Some(m)
    ensures Inside(s, q, m)
  {
    hide SessionBody, FloorBody, LoaderBody, TruckBody, LoginStage, RelayStep, Inside;
    if q.pc.DoBelt? {
      if SessionOp(q.pc.bop) {
        SessionInside(s, pid, q, q.pc.bop, q.pc.seenBelt, m);
      } else {
        FloorInside(s, q, q.pc.bop, m);
      }
    } else if q.pc.DoDock? {
      DockInside(s, pid, q, q.pc.dop, q.pc.seenDock, c, m);
    } else if Logging(q.pc) {
      LoginInside(s, pid, q, m);
    } else {
      RelayInside(s, q, m);
    }
  }

  lemma FreshIn(s: State, capacity: nat, pid: int)
    requires Reachable(s, capacity) && pid in s.procs
    ensures Fresh(s.sh, s.procs[pid]) && ProcOk(s.procs[pid]) && BaseOk(s) && RegistryOk(s) && |s.sh.belt.ring.slots| == capacity
    ensures BeltRing.RingOk(s.sh.belt.ring)
  {
    hide Reachable, RegistryOk, TokensOk, WorkersOk, PackagesOk, YardOk, AccountsOk, RejectOk, StopOk, ProgramsOk, ProcOk, Fresh, BeltRing.RingOk;
    ReachableInv(s, capacity);
  }

  /** A process inside a critical section is driven out of it; nobody else moves. */
  lemma {:induction false} DriveOut(a: State, s: State, capacity: nat, h: int) returns (s': State)
    requires On(a, s, capacity) && h in s.procs
    ensures On(a, s', capacity) && SameTokens(s.sh, s'.sh)
    ensures h in s'.procs && s'.procs[h].pc.At? && s'.procs == s.procs[h := s'.procs[h]]
    ensures Leaving(s.procs[h].pc) ==> s'.procs[h].pc == At(Place(s.procs[h].pc))
    ensures s'.sh.belt.ring.count >= s.sh.belt.ring.count || s'.procs[h].pc == At(FreeEmpty)
    decreases SectionRank(s.procs[h].pc)
  {
    hide On, SectionRank, HoldsBelt;
    s' := s;
    if !s.procs[h].pc.At? {
      var m := HoldMove(a, s, capacity, h);
      s' := DriveOut(a, After(s, h, m), capacity, h);
    } else {
      assert s.procs == s.procs[h := s.procs[h]];
    }
  }

  lemma HoldMove(a: State, s: State, capacity: nat, h: int) returns (m: Move)
    requires On(a, s, capacity) && h in s.procs && !s.procs[h].pc.At?
    ensures Inside(s.sh, s.procs[h], m) && On(a, After(s, h, m), capacity)
  {
    hide Path, Reachable, ProcStep, BaseOk, ProcOk, RegistryOk, BeltRing.RingOk, Inside;
    var c := BeltTheorems.HolderCanMove(s, capacity, h);
    m := ProcStep(s.sh, h, s.procs[h], c).value;
    FreshIn(s, capacity, h);
    HoldInside(s.sh, h, s.procs[h], c, m);
    Move1(a, s, capacity, h, c, m);
  }

  /** The belt mutex is freed by driving its holder out. */
  lemma FreeBelt(a: State, s: State, capacity: nat) returns (s': State)
    requires On(a, s, capacity)
    ensures On(a, s', capacity) && SameTokens(s.sh, s'.sh) && s'.sh.beltMutex == 1
    ensures s'.procs.Keys == s.procs.Keys
    ensures forall p :: p in s.procs && !HoldsBelt(s.procs[p].pc) ==> s'.procs[p] == s.procs[p]
    ensures s'.sh.belt.ring.count >= s.sh.belt.ring.count || exists p :: p in s'.procs && s'.procs[p].pc == At(FreeEmpty)
  {
    hide Path, Reachable, RegistryOk, FloorOk, YardOk, AccountsOk, RejectOk, StopOk, ProgramsOk, ProcOk, Fresh;
    s' := s;
    ReachableInv(s, capacity);
    if s.sh.beltMutex == 0 {
      var h := CountSome(s.procs, BeltHolder);
      s' := DriveOut(a, s, capacity, h);
      ReachableInv(s', capacity);
      if s'.sh.beltMutex == 0 {
        var r := CountSome(s'.procs, BeltHolder);
        Exclusive(s, h, r);
      }
    }
  }
}
