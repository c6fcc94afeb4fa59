/** What the stop command does not achieve, second part: a worker that waits for a slot on a full
    belt is not released by it once no consumer is left. */
module Marooning {
  import opened Shared
  import opened Counting
  import opened SessionTable
  import BeltRing
  import Ledger
  import opened Protocol
  import opened Structure
  import opened Exclusion
  import opened Floor
  import opened Registry
  import opened Yard
  import opened Accounts
  import opened Rejection
  import opened Shutdown
  import opened Programs
  import opened Safety
  import opened Paths
  import opened Runs
  import opened Driving
  import opened Stranding
  import BeltTheorems
  import MassLimit

  predicate Popping(pc: PC) {
    (pc.InBelt? || pc.DoBelt?) && pc.bop.Pop?
  }

  /** A process that can still return an empty slot: it is about to, or it is the dispatcher waiting
      for a package or on its way to a pop; one that is already inside `pop` needs a package. */
  predicate CanFree(sh: Memory, q: Proc) {
    var pt := Place(q.pc);
    || pt.FreeEmpty? || pt.PutBackEmpty? || pt.WaitFull?
    || (pt == WantBelt(Pop) && (!Popping(q.pc) || sh.belt.ring.count > 0))
  }

  /** After the stop, the worker waits on the full belt and nobody can return a slot. */
  predicate Marooned(s: State, w: int) {
    && !s.sh.running && s.sh.empty == 0 && s.sh.log.emptyInterrupts == 0
    && w in s.procs && s.procs[w].pc == At(WaitEmpty)
    && forall p :: p in s.procs ==> !CanFree(s.sh, s.procs[p])
  }

  predicate Idle(s: Memory, q: Proc) {
    !s.running && s.empty == 0 && s.log.emptyInterrupts == 0 && !CanFree(s, q)
  }

  lemma IdlePoint(s: Memory, pid: int, q: Proc, c: Choice, m: Move)
    requires q.pc.At? && Idle(s, q) && !c.Interrupt? && ProcStep(s, pid, q, c) == Some(m)
    ensures Idle(m.sh, m.q) && !q.pc.point.WaitEmpty?
  {
    hide TerminalStep, LocalStep, EnterStep, TokenStep;
    var pt := q.pc.point;
    if AtTerminal(pt) {
      IdleTerminal(s, pid, q, pt, c, m);
    } else if pt.WantBelt? || pt.WantDock? {
      IdleEnter(s, q, pt, m);
    } else if AtToken(pt) {
      IdleToken(s, q, pt, c, m);
    } else {
      IdleLocal(s, pid, q, pt, c, m);
    }
  }

  lemma IdleTerminal(s: Memory, pid: int, q: Proc, pt: Point, c: Choice, m: Move)
    requires q.pc == At(pt) && AtTerminal(pt) && Idle(s, q) && TerminalStep(s, pid, q, pt, c) == Some(m)
    ensures Idle(m.sh, m.q)
  {
  }

  lemma IdleEnter(s: Memory, q: Proc, pt: Point, m: Move)
    requires q.pc == At(pt) && Idle(s, q) && EnterStep(s, q, pt) == Some(m)
    ensures Idle(m.sh, m.q)
  {
  }

  lemma IdleToken(s: Memory, q: Proc, pt: Point, c: Choice, m: Move)
    requires q.pc == At(pt) && Idle(s, q) && !c.Interrupt? && TokenStep(s, q, pt, c) == Some(m)
    ensures Idle(m.sh, m.q) && !pt.WaitEmpty?
  {
  }

  lemma IdleLocal(s: Memory, pid: int, q: Proc, pt: Point, c: Choice, m: Move)
    requires q.pc == At(pt) && Idle(s, q) && LocalStep(s, pid, q, pt, c) == Some(m)
    ensures Idle(m.sh, m.q)
  {
    match pt
    case WorkHead =>
    case Make =>
    case LoadTest =>
    case LoadDivide =>
    case TruckHead =>
    case TruckWait =>
    case TruckGot(_) =>
    case DispHead =>
    case DispRetry =>
    case ExprHead =>
    case ExprWait =>
    case MonHead =>
    case _ =>
  }

  lemma IdleHold(s: Memory, pid: int, q: Proc, c: Choice, m: Move)
    requires !q.pc.At? && Idle(s, q) && Fresh(s, q) && ProcStep(s, pid, q, c) == Some(m)
    requires Place(q.pc) == WantBelt(Push) ==> s.belt.ring.count < |s.belt.ring.slots|
    ensures Idle(m.sh, m.q)
  {
    hide SessionBody, FloorBody, LoaderBody, TruckBody, LoginStage, RelayStep;
    if q.pc.DoBelt? {
      if SessionOp(q.pc.bop) {
        IdleSession(s, pid, q, q.pc.bop, q.pc.seenBelt, m);
      } else {
        IdleFloor(s, q, q.pc.bop, m);
      }
    } else if q.pc.DoDock? {
      IdleDock(s, pid, q, q.pc.dop, q.pc.seenDock, c, m);
    } else if Logging(q.pc) {
      IdleLogin(s, pid, q, m);
    } else {
      IdleRelay(s, q, m);
    }
  }

  lemma IdleSession(s: Memory, pid: int, q: Proc, op: BeltOp, v: Belt, m: Move)
    requires q.pc == DoBelt(op, v) && Idle(s, q) && SessionBody(s, pid, q, op, v.users) == Some(m)
    ensures Idle(m.sh, m.q)
  {
    hide LoginSlot;
    match op
    case Login =>
    case Logout =>
    case Spawn =>
    case Finish =>
    case _ =>
  }

  lemma IdleFloor(s: Memory, q: Proc, op: BeltOp, m: Move)
    requires q.pc == DoBelt(op, s.belt) && Idle(s, q) && FloorBody(s, q, op, s.belt) == Some(m)
    requires op.Push? ==> s.belt.ring.count < |s.belt.ring.slots|
    ensures Idle(m.sh, m.q)
  {
    match op
    case Register =>
    case Unregister =>
    case Push =>
    case Pop =>
    case _ =>
  }

  lemma IdleDock(s: Memory, pid: int, q: Proc, op: DockOp, d: Ledger.Dock, c: Choice, m: Move)
    requires q.pc == DoDock(op, d) && Idle(s, q)
    requires LoaderBody(s, q, op, d, c) == Some(m) || TruckBody(s, pid, q, op, d, c) == Some(m)
    ensures Idle(m.sh, m.q)
  {
    hide Ledger.LoadPackage, Ledger.LoadBatch, Ledger.Claim, Ledger.Shutdown, Ledger.Depart, Ledger.Cleanup;
    match op
    case Load =>
    case Batch =>
    case _ =>
  }

  lemma IdleLogin(s: Memory, pid: int, q: Proc, m: Move)
    requires Idle(s, q) && LoginStage(s, pid, q) == Some(m)
    ensures Idle(m.sh, m.q)
  {
  }

  lemma IdleRelay(s: Memory, q: Proc, m: Move)
    requires Idle(s, q) && RelayStep(s, q) == Some(m)
    ensures Idle(m.sh, m.q)
  {
  }

  /** Without interrupted waits and free slots, a worker with a token finds room. */
  lemma RoomToPush(s: State, pid: int)
    requires FloorOk(s) && pid in s.procs && Place(s.procs[pid].pc) == WantBelt(Push) && s.sh.empty == 0 && s.sh.log.emptyInterrupts == 0
    ensures s.sh.belt.ring.count < |s.sh.belt.ring.slots|
  {
    hide QueueOk, WorkersOk, PackagesOk;
    CountOne(s.procs, pid, OwesEmpty);
  }

  lemma MaroonedAct(s: State, pid: int, c: Choice, m: Move, w: int)
    requires Inv(s) && Marooned(s, w) && pid in s.procs && !c.Interrupt? && ProcStep(s.sh, pid, s.procs[pid], c) == Some(m)
    ensures Idle(m.sh, m.q) && pid != w && (m.sh.belt != s.sh.belt ==> HoldsBelt(s.procs[pid].pc))
  {
    var q := s.procs[pid];
    assert ProcOk(q) && Fresh(s.sh, q);
    hide ProcStep, FloorOk, YardOk, AccountsOk, RejectOk, StopOk, ProgramsOk, BaseOk, RegistryOk, ProcOk, CanFree, SameProcess;
    ProcGuarded(s.sh, pid, q, c, m);
    if q.pc.At? {
      IdlePoint(s.sh, pid, q, c, m);
    } else {
      if Place(q.pc) == WantBelt(Push) {
        RoomToPush(s, pid);
      }
      IdleHold(s.sh, pid, q, c, m);
    }
  }

  /** Others cannot become able to return a slot: only the holder of the mutex changes the belt. */
  lemma OthersIdle(s: State, pid: int, m: Move, p: int)
    requires Inv(s) && pid in s.procs && p in s.procs && p != pid && !CanFree(s.sh, s.procs[p])
    requires m.sh.belt != s.sh.belt ==> HoldsBelt(s.procs[pid].pc)
    ensures !CanFree(m.sh, s.procs[p])
  {
    hide FloorOk, YardOk, AccountsOk, RejectOk, StopOk, ProgramsOk, RegistryOk;
    Exclusive(s, pid, p);
  }

  lemma MaroonedStep(s: State, l: Label, w: int)
    requires Inv(s) && Marooned(s, w) && Step(s, l).Some? && !Interruption(l)
    ensures Marooned(Step(s, l).value, w) && Step(s, l).value.procs[w] == s.procs[w]
  {
    hide Inv, ProcStep, CanFree, HoldsBelt;
    if l.Fork? {
      NewbornIsIdle(s.sh, Step(s, l).value.procs[l.pid]);
    } else if l.Halt? {
      HaltIsIdle(s);
    } else {
      var m := ProcStep(s.sh, l.pid, s.procs[l.pid], l.choice).value;
      MaroonedAct(s, l.pid, l.choice, m, w);
      forall p | p in s.procs && p != l.pid
        ensures !CanFree(m.sh, s.procs[p])
      {
        OthersIdle(s, l.pid, m, p);
      }
    }
  }

  lemma NewbornIsIdle(sh: Memory, q: Proc)
    requires q.pc == At(WantBelt(Login))
    ensures !CanFree(sh, q)
  {
  }

  lemma HaltIsIdle(s: State)
    ensures forall p :: p in s.procs && !CanFree(s.sh, s.procs[p]) ==> !CanFree(s.sh.(running := false), s.procs[p])
  {
  }

  /** Such a worker waits for ever, unless its wait is interrupted from outside. */
  lemma {:induction false} MaroonedForEver(s: State, ls: seq<Label>, w: int)
    requires Inv(s) && Marooned(s, w) && Exec(s, ls).Some? && Uninterrupted(ls)
    ensures var s' := Exec(s, ls).value; Inv(s') && Marooned(s', w) && s'.procs[w] == s.procs[w]
  {
    hide Step, Marooned, Inv;
    if ls != [] {
      var before, l := ls[..|ls| - 1], ls[|ls| - 1];
      MaroonedForEver(s, before, w);
      MaroonedStep(Exec(s, before).value, l, w);
      StepInv(Exec(s, before).value, l);
    }
  }

  /** A state on the way in which the worker has moved on. */
  ghost predicate Freed(a: State, s: State, capacity: nat, w: int) {
    On(a, s, capacity) && w in s.procs && s.procs[w].pc != At(WaitEmpty)
  }

  ghost predicate Waiting(a: State, s: State, capacity: nat, w: int) {
    On(a, s, capacity) && w in s.procs && s.procs[w].pc == At(WaitEmpty)
  }

  lemma TakesSlot(a: State, s: State, capacity: nat, w: int) returns (s': State)
    requires Waiting(a, s, capacity, w) && s.sh.empty > 0
    ensures Freed(a, s', capacity, w)
  {
    hide Path, Reachable;
    var m := Move(s.sh.(empty := s.sh.empty - 1), s.procs[w].(pc := At(WantBelt(Push))));
    Move1(a, s, capacity, w, Go, m);
    s' := After(s, w, m);
  }

  lemma FreeVia(a: State, s: State, capacity: nat, r: int, w: int) returns (s': State)
    requires Waiting(a, s, capacity, w) && r in s.procs && (Place(s.procs[r].pc).PutBackEmpty? || Place(s.procs[r].pc).FreeEmpty?)
    ensures Freed(a, s', capacity, w)
  {
    assert r != w;
    hide On;
    s' := GiveBack(a, s, capacity, r);
    s' := TakesSlot(a, s', capacity, w);
  }

  /** A pop on a belt with packages goes through, and its slot is returned. */
  lemma {:induction false} PopThrough(a: State, s: State, capacity: nat, d: int, w: int) returns (s': State)
    requires Waiting(a, s, capacity, w) && d in s.procs && s.sh.belt.ring.count > 0
    requires Popping(s.procs[d].pc) || (s.procs[d].pc == At(WantBelt(Pop)) && s.sh.beltMutex > 0)
    ensures Freed(a, s', capacity, w)
    decreases if s.procs[d].pc.At? then 2 else if s.procs[d].pc.InBelt? then 1 else 0
  {
    assert d != w;
    hide On;
    var m := PopOn(a, s, capacity, d);
    if s.procs[d].pc.DoBelt? {
      s' := FreeVia(a, After(s, d, m), capacity, d, w);
    } else {
      s' := PopThrough(a, After(s, d, m), capacity, d, w);
    }
  }

  lemma PopOn(a: State, s: State, capacity: nat, d: int) returns (m: Move)
    requires On(a, s, capacity) && d in s.procs && s.sh.belt.ring.count > 0
    requires Popping(s.procs[d].pc) || (s.procs[d].pc == At(WantBelt(Pop)) && s.sh.beltMutex > 0)
    ensures On(a, After(s, d, m), capacity)
    ensures s.procs[d].pc.At? ==> m.q.pc == InBelt(Pop) && m.sh.belt == s.sh.belt
    ensures s.procs[d].pc.InBelt? ==> m.q.pc.DoBelt? && Popping(m.q.pc) && m.sh.belt == s.sh.belt
    ensures s.procs[d].pc.DoBelt? ==> m.q.pc == UnlockBelt(FreeEmpty)
  {
    hide Path, Reachable, BaseOk, RegistryOk, ProcOk, ProcStep, BeltRing.RingOk;
    FreshIn(s, capacity, d);
    m := PopMove(s.sh, d, s.procs[d]);
    Move1(a, s, capacity, d, Go, m);
  }

  lemma PopMove(s: Memory, pid: int, q: Proc) returns (m: Move)
    requires Fresh(s, q) && BeltRing.RingOk(s.belt.ring) && s.belt.ring.count > 0
    requires Popping(q.pc) || (q.pc == At(WantBelt(Pop)) && s.beltMutex > 0)
    ensures ProcStep(s, pid, q, Go) == Some(m)
    ensures q.pc.At? ==> m.q.pc == InBelt(Pop) && m.sh.belt == s.belt
    ensures q.pc.InBelt? ==> m.q.pc.DoBelt? && Popping(m.q.pc) && m.sh.belt == s.belt
    ensures q.pc.DoBelt? ==> m.q.pc == UnlockBelt(FreeEmpty)
  {
    hide BeltRing.Window;
    m := ProcStep(s, pid, q, Go).value;
  }

  function PushRank(pc: PC): nat {
    match pc
    case SendDock(_, _) => 5
    case UnlockBelt(_) => 4
    case UnlockDock(_) => 4
    case At(_) => 3
    case InBelt(_) => 2
    case _ => 1
  }

  /** What a step of a worker on its way through `push` leads to. */
  predicate Pushed(s: Memory, s': Memory, pc: PC) {
    || (pc == UnlockBelt(PutFull) && s'.belt.ring.count == s.belt.ring.count + 1)
    || (pc == UnlockBelt(PutBackEmpty) && s.belt.ring.count >= |s.belt.ring.slots|)
  }

  lemma PushMove(s: Memory, pid: int, q: Proc) returns (m: Move)
    requires Fresh(s, q) && ProcOk(q) && BeltRing.RingOk(s.belt.ring)
    requires Place(q.pc) == WantBelt(Push) && (!HoldsBelt(q.pc) ==> s.beltMutex > 0)
    ensures ProcStep(s, pid, q, Go) == Some(m) && SameTokens(s, m.sh)
    ensures !q.pc.DoBelt? ==>
      Place(m.q.pc) == WantBelt(Push) && PushRank(m.q.pc) < PushRank(q.pc) && m.sh.belt == s.belt && (!HoldsBelt(m.q.pc) ==> m.sh.beltMutex > 0)
    ensures q.pc.DoBelt? ==> Pushed(s, m.sh, m.q.pc)
  {
    hide BeltRing.Window;
    m := ProcStep(s, pid, q, Go).value;
    match q.pc
    case At(_) =>
    case InBelt(_) =>
    case DoBelt(_, _) =>
    case UnlockBelt(_) =>
    case SendDock(_, _) =>
    case UnlockDock(_) =>
    case _ =>
  }

  /** A worker with a token pushes its package or is refused; nobody else moves. */
  lemma {:induction false} PushDone(a: State, s: State, capacity: nat, r: int) returns (s': State)
    requires On(a, s, capacity) && r in s.procs && Place(s.procs[r].pc) == WantBelt(Push)
    requires !HoldsBelt(s.procs[r].pc) ==> s.sh.beltMutex > 0
    ensures On(a, s', capacity) && SameTokens(s.sh, s'.sh) && r in s'.procs && s'.procs == s.procs[r := s'.procs[r]]
    ensures Pushed(s.sh, s'.sh, s'.procs[r].pc)
    decreases PushRank(s.procs[r].pc)
  {
    hide Path, Reachable, BaseOk, RegistryOk, ProcOk, PushRank, Pushed;
    FreshIn(s, capacity, r);
    var m := PushMove(s.sh, r, s.procs[r]);
    Move1(a, s, capacity, r, Go, m);
    s' := After(s, r, m);
    if !s.procs[r].pc.DoBelt? {
      var s1 := s';
      s' := PushDone(a, s1, capacity, r);
      SameBelt(s.sh, s1.sh, s'.sh, s'.procs[r].pc);
    }
  }

  lemma SameBelt(s: Memory, s1: Memory, s': Memory, pc: PC)
    requires s1.belt == s.belt && Pushed(s1, s', pc)
    ensures Pushed(s, s', pc)
  {
  }

  lemma Counted(s: Memory, s': Memory, pc: PC)
    requires Pushed(s, s', pc) && (pc != UnlockBelt(PutBackEmpty) || s.belt.ring.count < |s.belt.ring.slots|)
    ensures pc == UnlockBelt(PutFull) && s'.belt.ring.count == s.belt.ring.count + 1
  {
  }

  /** Empty tokens are on their way if the belt has room or a wait was interrupted. */
  lemma SomeoneOwes(s: State, capacity: nat) returns (r: int)
    requires Reachable(s, capacity) && s.sh.empty == 0 && (s.sh.belt.ring.count < capacity || s.sh.log.emptyInterrupts > 0)
    ensures r in s.procs && OwesEmpty(s.procs[r]) && s.sh.belt.ring.count <= capacity
  {
    hide Reachable, BaseOk, RegistryOk, YardOk, AccountsOk, RejectOk, StopOk, ProgramsOk, WorkersOk, PackagesOk, OwesEmpty, OwesFull;
    ReachableInv(s, capacity);
    r := CountSome(s.procs, OwesEmpty);
  }

  /** After interrupted waits there are more tokens than slots, so that some worker will be refused
      and return its token. */
  lemma {:induction false} PushOut(a: State, s: State, capacity: nat, w: int) returns (s': State)
    requires Waiting(a, s, capacity, w) && s.sh.log.emptyInterrupts > 0
    ensures Freed(a, s', capacity, w)
    decreases capacity - s.sh.belt.ring.count
  {
    hide Path, Reachable, Pushed;
    var s0 := FreeBelt(a, s, capacity);
    if s0.sh.empty > 0 {
      s' := TakesSlot(a, s0, capacity, w);
    } else if z :| z in s0.procs && s0.procs[z].pc == At(FreeEmpty) {
      s' := FreeVia(a, s0, capacity, z, w);
    } else {
      var r := SomeoneOwes(s0, capacity);
      if Place(s0.procs[r].pc) == WantBelt(Push) {
        var s1 := PushDone(a, s0, capacity, r);
        if s1.procs[r].pc == UnlockBelt(PutBackEmpty) {
          s' := FreeVia(a, s1, capacity, r, w);
        } else {
          assert s1.sh.belt.ring.count == s0.sh.belt.ring.count + 1 by { Counted(s0.sh, s1.sh, s1.procs[r].pc); }
          s' := PushOut(a, s1, capacity, w);
        }
      } else {
        s' := FreeVia(a, s0, capacity, r, w);
      }
    }
  }

  /** With the mutex free, the worker `r` puts its package on the belt and leaves. */
  lemma PutOne(a: State, s: State, capacity: nat, r: int) returns (s': State)
    requires On(a, s, capacity) && s.sh.beltMutex == 1 && s.sh.belt.ring.count < capacity
    requires r in s.procs && Place(s.procs[r].pc) == WantBelt(Push)
    ensures On(a, s', capacity) && r in s'.procs && s'.procs == s.procs[r := s'.procs[r]]
    ensures s'.sh.beltMutex == 1 && s'.sh.belt.ring.count > s.sh.belt.ring.count
  {
    hide Path, Reachable, Pushed;
    RingSize(s, capacity);
    var s1 := PushDone(a, s, capacity, r);
    Counted(s.sh, s1.sh, s1.procs[r].pc);
    s' := DriveOut(a, s1, capacity, r);
    NobodyInside(s, s', capacity, r);
  }

  lemma RingSize(s: State, capacity: nat)
    requires Reachable(s, capacity)
    ensures |s.sh.belt.ring.slots| == capacity && 0 <= s.sh.belt.ring.count <= capacity
  {
    hide Reachable, BaseOk, RegistryOk, YardOk, AccountsOk, RejectOk, StopOk, ProgramsOk, WorkersOk, PackagesOk, TokensOk;
    ReachableInv(s, capacity);
  }

  lemma NobodyInside(s: State, s': State, capacity: nat, r: int)
    requires Reachable(s, capacity) && Reachable(s', capacity) && s.sh.beltMutex == 1
    requires r in s'.procs && s'.procs[r].pc.At? && s'.procs == s.procs[r := s'.procs[r]]
    ensures s'.sh.beltMutex == 1
  {
    hide Reachable, FloorOk, RegistryOk, YardOk, AccountsOk, RejectOk, StopOk, ProgramsOk;
    ReachableInv(s, capacity);
    ReachableInv(s', capacity);
    if s'.sh.beltMutex == 0 {
      var z := CountSome(s'.procs, BeltHolder);
      CountOne(s.procs, z, BeltHolder);
      assert false;
    }
  }

  /** A dispatcher about to pop will return a slot: if the belt is empty, some worker fills it first. */
  lemma PopRelease(a: State, s: State, capacity: nat, d: int, w: int) returns (s': State)
    requires Waiting(a, s, capacity, w) && d in s.procs && s.procs[d].pc == At(WantBelt(Pop))
    ensures Freed(a, s', capacity, w)
  {
    hide Path, Reachable;
    var s0 := FreeBelt(a, s, capacity);
    RingSize(s0, capacity);
    if s0.sh.empty > 0 {
      s' := TakesSlot(a, s0, capacity, w);
    } else if s0.sh.belt.ring.count > 0 {
      s' := PopThrough(a, s0, capacity, d, w);
    } else {
      assert capacity > 0 by { Positive(s, capacity); }
      var r := SomeoneOwes(s0, capacity);
      if Place(s0.procs[r].pc) == WantBelt(Push) {
        var s1 := PutOne(a, s0, capacity, r);
        s' := PopThrough(a, s1, capacity, d, w);
      } else {
        s' := FreeVia(a, s0, capacity, r, w);
      }
    }
  }

  lemma Positive(s: State, capacity: nat)
    requires Reachable(s, capacity)
    ensures capacity > 0
  {
  }

  /** While the dispatcher waits for a package, the worker's own package, or another one, will wake
      it, and it will return a slot. */
  lemma WakeRelease(a: State, s: State, capacity: nat, d: int, w: int) returns (s': State)
    requires Waiting(a, s, capacity, w) && d in s.procs && s.procs[d].pc == At(WaitFull)
    ensures Freed(a, s', capacity, w)
  {
    hide Path, Reachable;
    s' := Release(a, s, capacity, d, w);
    if s'.procs[w].pc == At(WaitEmpty) {
      s' := TakesPackage(a, s', capacity, d);
      s' := PopRelease(a, s', capacity, d, w);
    }
  }

  lemma PlaceRelease(a: State, s: State, capacity: nat, p: int, w: int) returns (s': State)
    requires Waiting(a, s, capacity, w) && p in s.procs && CanFree(s.sh, s.procs[p])
    ensures Freed(a, s', capacity, w)
  {
    hide On;
    var pc := s.procs[p].pc;
    if Place(pc).FreeEmpty? || Place(pc).PutBackEmpty? {
      s' := FreeVia(a, s, capacity, p, w);
    } else if Popping(pc) {
      s' := PopThrough(a, s, capacity, p, w);
    } else {
      var s1 := DriveOut(a, s, capacity, p);
      if Place(pc).WaitFull? {
        s' := WakeRelease(a, s1, capacity, p, w);
      } else {
        s' := PopRelease(a, s1, capacity, p, w);
      }
    }
  }

  /** A worker that waits for a slot when the system has stopped is never released exactly if there
      is none, the packages on the belt and the tokens in flight fill it exactly, and nobody can
      return a slot any more. There are more tokens only after an interrupted wait. */
  lemma WorkerStrandedExactlyWhen(s: State, capacity: nat, w: int)
    requires Reachable(s, capacity) && !s.sh.running && w in s.procs && s.procs[w].pc == At(WaitEmpty)
    ensures WaitsForEver(s, w) <==>
      && s.sh.empty == 0 && s.sh.belt.ring.count + Count(s.procs, OwesEmpty) == capacity
      && forall p :: p in s.procs ==> !CanFree(s.sh, s.procs[p])
  {
    hide Reachable, Inv, Exec, CanFree, OwesEmpty, OwesFull, BeltRing.RingOk;
    BeltTheorems.TokensConserved(s, capacity);
    if Marooned(s, w) {
      ReachableInv(s, capacity);
      forall s' | Path(s, s')
        ensures w in s'.procs && s'.procs[w] == s.procs[w]
      {
        var ls :| Uninterrupted(ls) && Exec(s, ls) == Some(s');
        MaroonedForEver(s, ls, w);
      }
    } else {
      Stay(s);
      var s1;
      if s.sh.empty > 0 {
        s1 := TakesSlot(s, s, capacity, w);
      } else if s.sh.log.emptyInterrupts > 0 {
        s1 := PushOut(s, s, capacity, w);
      } else {
        var p :| p in s.procs && CanFree(s.sh, s.procs[p]);
        s1 := PlaceRelease(s, s, capacity, p, w);
      }
      assert Path(s, s1) && s1.procs[w] != s.procs[w];
    }
  }

  /** This happens with a belt of any size: a worker fills the belt, waits with one package more, and
      an administrator stops the system, to the end of the scan. */
  lemma MarooningHappens(capacity: nat) returns (s: State)
    requires capacity > 0
    ensures Reachable(s, capacity) && Marooned(s, 1) && s.sh.log.swept == MAX_USERS_SESSIONS
    ensures s.procs.Keys == {1, 4} && s.procs[4].pc == At(Exited)
  {
    s := LoneWorker(capacity);
    hide Calm;
    s := StopAll(s, capacity);
    CalmReaches(s, capacity);
    NoInterrupts(s, capacity);
  }

  lemma LoneWorker(capacity: nat) returns (s: State)
    requires capacity > 0
    ensures AdminReady(s, capacity) && s.procs.Keys == {1, 4} && s.procs[1].pc == At(WaitEmpty)
    ensures s.sh.empty == 0 && s.sh.belt.ring.count == capacity
  {
    hide Calm;
    s := WorkerAndAdmin(capacity);
    s := Begin(s, capacity, 1);
    s := MakePackage(s, capacity, 1, MassLimit.HEAVY);
  }

  lemma WorkerAndAdmin(capacity: nat) returns (s: State)
    requires capacity > 0
    ensures AdminReady(s, capacity) && s.procs.Keys == {1, 4} && Working(s, capacity, 1)
    ensures s.sh.empty == 0 && s.sh.belt.ring.count == capacity
  {
    s := MassLimit.FillBelt(capacity, capacity);
    hide Calm;
    var slot;
    s, slot := AddAdmin(s, capacity);
  }

  lemma AddAdmin(s: State, capacity: nat) returns (s': State, slot: nat)
    requires Calm(s, capacity) && s.procs.Keys == {1} && s.procs[1].name == "Worker_1"
    ensures Calm(s', capacity) && s'.procs == s.procs[4 := Joined(Terminal, TERMINAL_NAME, {Operator, SysAdmin}, slot)]
    ensures s'.sh == s.sh.(belt := s.sh.belt.(users := s'.sh.belt.users))
  {
    StoredApart("Worker_1", TERMINAL_NAME);
    hide Calm, Stored;
    assert forall p :: p in s.procs ==> p == 1;
    var free := RoomForTwo(s, capacity, 1);
    s', slot := JoinAt(s, capacity, 4, Terminal, TERMINAL_NAME, {Operator, SysAdmin}, free);
  }

  lemma NoInterrupts(s: State, capacity: nat)
    requires Reachable(s, capacity) && s.sh.empty == 0 && s.sh.belt.ring.count == capacity
    requires forall p :: p in s.procs ==> !OwesEmpty(s.procs[p])
    ensures s.sh.log.emptyInterrupts == 0
  {
    hide Reachable, BaseOk, RegistryOk, YardOk, AccountsOk, RejectOk, StopOk, ProgramsOk, WorkersOk, PackagesOk, OwesEmpty, OwesFull;
    ReachableInv(s, capacity);
    if Count(s.procs, OwesEmpty) > 0 {
      var r := CountSome(s.procs, OwesEmpty);
      assert false;
    }
  }
}
