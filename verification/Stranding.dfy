/** What the stop command does not achieve, first part: a dispatcher that waits for a package is not
    woken by it. It goes on exactly if some worker is still on its way to bringing a package. */
module Stranding {
  import opened Shared
  import opened Counting
  import opened SessionTable
  import BeltRing
  import Ledger
  import opened Protocol
  import opened Structure
  import opened Exclusion
  import opened Floor
  import opened Registry
  import opened Yard
  import opened Accounts
  import opened Rejection
  import opened Shutdown
  import opened Programs
  import opened Safety
  import opened Paths
  import opened Runs
  import opened Driving
  import BeltTheorems
  import SessionTheorems

  /** A worker that will bring one more package whatever happens to `running`: it is about to be
      granted a sub-process, or has one and has not yet signalled its package. */
  predicate CanSignal(q: Proc) {
    var pt := Place(q.pc);
    || (pt == WantBelt(Spawn) && q.quota >= 1)
    || pt.Make? || pt.LoadTest? || pt.LoadDivide? || pt.WaitEmpty? || pt == WantBelt(Push) || pt.PutFull?
  }

  function SignalPlace(pt: Point): nat {
    match pt
    case Make => 6
    case LoadTest => 5
    case LoadDivide => 4
    case WaitEmpty => 3
    case WantBelt(op) => if op.Push? then 2 else 7
    case _ => 1
  }

  /** Steps on the way to the signal. */
  function SignalRank(pc: PC): nat {
    10 * SignalPlace(Place(pc)) +
    (match pc
     case SendDock(_, _) => 5
     case UnlockBelt(_) => 4
     case UnlockDock(_) => 4
     case At(_) => 3
     case InBelt(_) => 2
     case InDock(_) => 2
     case _ => 1)
  }

  /** Closer to the signal, or there. */
  predicate Nearer(q: Proc, m: Move) {
    m.sh.full > 0 || (CanSignal(m.q) && SignalRank(m.q.pc) < SignalRank(q.pc))
  }

  const ANY := Package(0, 0, TypeA, 1.0, VOL_A)

  function Onwards(q: Proc): (c: Choice)
    ensures !c.Interrupt?
  {
    if q.pc == At(Make) then Choice.Pack(ANY) else Go
  }

  lemma PointNearer(s: Memory, pid: int, q: Proc)
    requires q.pc.At? && CanSignal(q) && (q.pc.point.WantBelt? ==> s.beltMutex > 0)
    requires (q.pc.point.WaitEmpty? ==> s.empty > 0) && (q.pc.point.LoadDivide? ==> s.belt.workers > 0)
    ensures ProcStep(s, pid, q, Onwards(q)).Some? && Nearer(q, ProcStep(s, pid, q, Onwards(q)).value)
  {
    match q.pc.point
    case WantBelt(_) =>
    case Make =>
    case LoadTest =>
    case LoadDivide =>
    case WaitEmpty =>
    case PutFull =>
    case _ =>
  }

  lemma RelayNearer(s: Memory, pid: int, q: Proc)
    requires !q.pc.At? && !q.pc.DoBelt? && CanSignal(q)
    ensures ProcStep(s, pid, q, Go).Some? && Nearer(q, ProcStep(s, pid, q, Go).value)
  {
    match q.pc
    case InBelt(_) =>
    case UnlockBelt(_) =>
    case SendDock(_, _) =>
    case UnlockDock(_) =>
    case _ =>
  }

  lemma PushNearer(s: Memory, pid: int, q: Proc)
    requires q.pc == DoBelt(Push, s.belt) && ProcOk(q) && BeltRing.RingOk(s.belt.ring) && s.belt.ring.count < |s.belt.ring.slots|
    ensures ProcStep(s, pid, q, Go).Some? && Nearer(q, ProcStep(s, pid, q, Go).value)
  {
    hide BeltRing.Window;
    BeltTheorems.PushProceeds(s, pid, q, Go);
  }

  lemma SpawnNearer(s: State, capacity: nat, p: int)
    requires Reachable(s, capacity) && p in s.procs && s.procs[p].pc.DoBelt? && s.procs[p].pc.bop.Spawn? && s.procs[p].quota >= 1
    ensures var m := ProcStep(s.sh, p, s.procs[p], Go); m.Some? && Nearer(s.procs[p], m.value)
  {
    hide Reachable, ProcStep;
    SessionTheorems.SpawnGrantedExactlyWhen(s, capacity, p, Go);
  }

  /** A worker with a package on its way that is not blocked can come closer to its signal. */
  lemma OwnStep(s: State, capacity: nat, p: int) returns (m: Move)
    requires Reachable(s, capacity) && p in s.procs && CanSignal(s.procs[p])
    requires s.procs[p].pc.At? && s.procs[p].pc.point.WantBelt? ==> s.sh.beltMutex > 0
    requires s.procs[p].pc == At(WaitEmpty) ==> s.sh.empty > 0
    requires Place(s.procs[p].pc) == WantBelt(Push) && HoldsBelt(s.procs[p].pc) ==> s.sh.belt.ring.count < capacity
    ensures ProcStep(s.sh, p, s.procs[p], Onwards(s.procs[p])) == Some(m) && Nearer(s.procs[p], m)
  {
    hide Reachable, ProcStep, BaseOk, RegistryOk, ProcOk, Nearer, BeltRing.RingOk;
    var q := s.procs[p];
    FreshIn(s, capacity, p);
    if q.pc.At? {
      BeltTheorems.WorkerCountExact(s, capacity);
      PointNearer(s.sh, p, q);
    } else if q.pc.DoBelt? {
      if q.pc.bop.Push? {
        PushNearer(s.sh, p, q);
      } else {
        SpawnNearer(s, capacity, p);
      }
    } else {
      RelayNearer(s.sh, p, q);
    }
    m := ProcStep(s.sh, p, q, Onwards(q)).value;
  }

  /** While the dispatcher waits for a package, tokens are owed by workers only. */
  lemma OwedByWorkers(s: State, capacity: nat, d: int)
    requires Reachable(s, capacity) && d in s.procs && s.procs[d].pc == At(WaitFull)
    ensures forall r :: r in s.procs && OwesFull(s.procs[r]) ==> Place(s.procs[r].pc).PutFull?
    ensures forall r :: r in s.procs && OwesEmpty(s.procs[r]) ==> Place(s.procs[r].pc) == WantBelt(Push) || Place(s.procs[r].pc).PutBackEmpty?
  {
    hide Reachable;
    forall r | r in s.procs && (OwesFull(s.procs[r]) || OwesEmpty(s.procs[r]))
      ensures !AtDispatcher(Place(s.procs[r].pc))
    {
      if AtDispatcher(Place(s.procs[r].pc)) {
        SessionTheorems.DispatcherIsUnique(s, capacity, d, r);
      }
    }
  }

  /** A process that gives back an empty slot is driven to do so. */
  lemma GiveBack(a: State, s: State, capacity: nat, r: int) returns (s': State)
    requires On(a, s, capacity) && r in s.procs && (Place(s.procs[r].pc).PutBackEmpty? || Place(s.procs[r].pc).FreeEmpty?)
    ensures On(a, s', capacity) && s'.sh.empty > 0
    ensures r in s'.procs && s'.procs == s.procs[r := s'.procs[r]]
  {
    hide On;
    s' := DriveOut(a, s, capacity, r);
    var m := BackStep(s'.sh, r, s'.procs[r]);
    Move1(a, s', capacity, r, Go, m);
    s' := After(s', r, m);
  }

  lemma BackStep(s: Memory, pid: int, q: Proc) returns (m: Move)
    requires q.pc == At(PutBackEmpty) || q.pc == At(FreeEmpty)
    ensures ProcStep(s, pid, q, Go) == Some(m) && m.sh.empty == s.empty + 1
  {
    m := ProcStep(s, pid, q, Go).value;
  }

  lemma Advance(a: State, s: State, capacity: nat, d: int, p: int) returns (s': State)
    requires On(a, s, capacity) && d in s.procs && s.procs[d].pc == At(WaitFull) && p in s.procs && CanSignal(s.procs[p])
    requires s.procs[p].pc.At? && s.procs[p].pc.point.WantBelt? ==> s.sh.beltMutex > 0
    requires s.procs[p].pc == At(WaitEmpty) ==> s.sh.empty > 0
    requires Place(s.procs[p].pc) == WantBelt(Push) && HoldsBelt(s.procs[p].pc) ==> s.sh.belt.ring.count < capacity
    ensures On(a, s', capacity) && s'.procs.Keys == s.procs.Keys && s'.procs[d] == s.procs[d]
    ensures s'.sh.full > 0 || (CanSignal(s'.procs[p]) && SignalRank(s'.procs[p].pc) < SignalRank(s.procs[p].pc))
  {
    assert p != d;
    hide Path, Reachable, ProcStep, CanSignal, SignalRank;
    var m := OwnStep(s, capacity, p);
    Move1(a, s, capacity, p, Onwards(s.procs[p]), m);
    s' := After(s, p, m);
  }

  /** The way is cleared for a blocked worker: somebody returns an empty slot, or the belt mutex. */
  lemma Clear(a: State, s: State, capacity: nat, d: int, p: int) returns (s': State)
    requires On(a, s, capacity) && d in s.procs && s.procs[d].pc == At(WaitFull) && p in s.procs && CanSignal(s.procs[p])
    requires s.procs[p].pc == At(WaitEmpty) && s.sh.empty == 0 ==>
      exists r :: r in s.procs && Place(s.procs[r].pc).PutBackEmpty?
    ensures On(a, s', capacity) && s'.procs.Keys == s.procs.Keys && s'.procs[d] == s.procs[d] && s'.procs[p] == s.procs[p]
    ensures s.procs[p].pc.At? && s.procs[p].pc.point.WantBelt? ==> s'.sh.beltMutex > 0
    ensures s.procs[p].pc == At(WaitEmpty) ==> s'.sh.empty > 0
    ensures HoldsBelt(s.procs[p].pc) ==> s' == s
  {
    hide On;
    s' := s;
    if s.procs[p].pc == At(WaitEmpty) && s.sh.empty == 0 {
      var r :| r in s.procs && Place(s.procs[r].pc).PutBackEmpty?;
      s' := GiveBack(a, s, capacity, r);
    } else if s.procs[p].pc.At? && s.procs[p].pc.point.WantBelt? {
      s' := FreeBelt(a, s, capacity);
    }
  }

  /** From a worker with a package on its way there is a run to a signalled package, in which the
      waiting dispatcher does not move. */
  lemma {:induction false} Release(a: State, s: State, capacity: nat, d: int, p: int) returns (s': State)
    requires On(a, s, capacity) && d in s.procs && s.procs[d].pc == At(WaitFull) && p in s.procs && CanSignal(s.procs[p])
    ensures On(a, s', capacity) && s'.sh.full > 0 && s'.procs.Keys == s.procs.Keys && s'.procs[d] == s.procs[d]
    decreases SignalRank(s.procs[p].pc)
  {
    hide Path, Reachable, SignalRank;
    s' := s;
    if s.sh.full == 0 {
      var r := Ahead(s, capacity, d, p);
      if r != p {
        s' := Release(a, s, capacity, d, r);
      } else {
        var s1 := Clear(a, s, capacity, d, p);
        s' := Advance(a, s1, capacity, d, p);
        if s'.sh.full == 0 {
          s' := Release(a, s', capacity, d, p);
        }
      }
    }
  }

  /** Who goes first: a worker that has pushed already, or one that has a token when there are none
      left; otherwise `p` itself, and then nothing but a returned slot or the mutex is in its way. */
  lemma Ahead(s: State, capacity: nat, d: int, p: int) returns (r: int)
    requires Reachable(s, capacity) && s.sh.full == 0
    requires d in s.procs && s.procs[d].pc == At(WaitFull) && p in s.procs && CanSignal(s.procs[p])
    ensures r in s.procs && CanSignal(s.procs[r]) && (r != p ==> SignalRank(s.procs[r].pc) < SignalRank(s.procs[p].pc))
    ensures r == p && s.procs[p].pc == At(WaitEmpty) && s.sh.empty == 0 ==>
      exists z :: z in s.procs && Place(s.procs[z].pc).PutBackEmpty?
    ensures r == p && Place(s.procs[p].pc) == WantBelt(Push) ==> s.sh.belt.ring.count < capacity
  {
    hide Reachable;
    OwedByWorkers(s, capacity, d);
    BeltTheorems.TokensConserved(s, capacity);
    hide BeltRing.RingOk;
    r := p;
    if !Place(s.procs[p].pc).PutFull? && Count(s.procs, OwesFull) > 0 {
      r := CountSome(s.procs, OwesFull);
    } else if s.procs[p].pc == At(WaitEmpty) && s.sh.empty == 0 {
      r := CountSome(s.procs, OwesEmpty);
      if Place(s.procs[r].pc).PutBackEmpty? {
        r := p;
      }
    }
  }

  /** After the stop, the dispatcher waits on the empty belt and no package is on its way to it. */
  predicate Stranded(s: State, d: int) {
    && !s.sh.running && s.sh.full == 0
    && d in s.procs && s.procs[d].pc == At(WaitFull)
    && forall p :: p in s.procs ==> !CanSignal(s.procs[p])
  }

  predicate Barren(s: Memory, q: Proc) {
    !s.running && s.full == 0 && !CanSignal(q)
  }

  lemma BarrenPoint(s: Memory, pid: int, q: Proc, c: Choice, m: Move)
    requires q.pc.At? && Barren(s, q) && !AtDispatcher(q.pc.point) && ProcStep(s, pid, q, c) == Some(m)
    ensures Barren(m.sh, m.q)
  {
    hide TerminalStep, LocalStep, EnterStep;
    var pt := q.pc.point;
    if AtTerminal(pt) {
      BarrenTerminal(s, pid, q, pt, c, m);
    } else if pt.WantBelt? || pt.WantDock? {
      BarrenEnter(s, q, pt, m);
    } else if !AtToken(pt) {
      BarrenLocal(s, pid, q, pt, c, m);
    }
  }

  lemma BarrenTerminal(s: Memory, pid: int, q: Proc, pt: Point, c: Choice, m: Move)
    requires q.pc == At(pt) && AtTerminal(pt) && Barren(s, q) && TerminalStep(s, pid, q, pt, c) == Some(m)
    ensures Barren(m.sh, m.q)
  {
  }

  lemma BarrenEnter(s: Memory, q: Proc, pt: Point, m: Move)
    requires q.pc == At(pt) && Barren(s, q) && EnterStep(s, q, pt) == Some(m)
    ensures Barren(m.sh, m.q)
  {
  }

  lemma BarrenLocal(s: Memory, pid: int, q: Proc, pt: Point, c: Choice, m: Move)
    requires q.pc == At(pt) && Barren(s, q) && LocalStep(s, pid, q, pt, c) == Some(m)
    ensures Barren(m.sh, m.q)
  {
    match pt
    case WorkHead =>
    case TruckHead =>
    case TruckWait =>
    case TruckGot(_) =>
    case DispHead =>
    case DispRetry =>
    case ExprHead =>
    case ExprWait =>
    case MonHead =>
    case _ =>
  }

  lemma BarrenHold(s: Memory, pid: int, q: Proc, c: Choice, m: Move)
    requires !q.pc.At? && Barren(s, q) && !AtDispatcher(Place(q.pc)) && ProcStep(s, pid, q, c) == Some(m)
    requires q.pc.DoBelt? ==> !q.pc.bop.Spawn?
    ensures Barren(m.sh, m.q)
  {
    hide SessionBody, FloorBody, LoaderBody, TruckBody, LoginStage, RelayStep;
    if q.pc.DoBelt? {
      BarrenBelt(s, pid, q, q.pc.bop, q.pc.seenBelt, m);
    } else if q.pc.DoDock? {
      BarrenDock(s, pid, q, q.pc.dop, q.pc.seenDock, c, m);
    } else if Logging(q.pc) {
      BarrenLogin(s, pid, q, m);
    } else {
      BarrenRelay(s, q, m);
    }
  }

  lemma BarrenBelt(s: Memory, pid: int, q: Proc, op: BeltOp, v: Belt, m: Move)
    requires q.pc == DoBelt(op, v) && Barren(s, q) && !op.Spawn? && !op.Pop?
    requires SessionBody(s, pid, q, op, v.users) == Some(m) || FloorBody(s, q, op, v) == Some(m)
    ensures Barren(m.sh, m.q)
  {
    hide LoginSlot;
    match op
    case Login =>
    case Logout =>
    case Register =>
    case Unregister =>
    case Finish =>
    case _ =>
  }

  lemma BarrenDock(s: Memory, pid: int, q: Proc, op: DockOp, d: Ledger.Dock, c: Choice, m: Move)
    requires q.pc == DoDock(op, d) && Barren(s, q)
    requires LoaderBody(s, q, op, d, c) == Some(m) || TruckBody(s, pid, q, op, d, c) == Some(m)
    ensures Barren(m.sh, m.q)
  {
    hide Ledger.LoadPackage, Ledger.LoadBatch, Ledger.Claim, Ledger.Shutdown, Ledger.Depart, Ledger.Cleanup;
    match op
    case Load =>
    case Batch =>
    case _ =>
  }

  lemma BarrenLogin(s: Memory, pid: int, q: Proc, m: Move)
    requires Barren(s, q) && LoginStage(s, pid, q) == Some(m)
    ensures Barren(m.sh, m.q)
  {
  }

  lemma BarrenRelay(s: Memory, q: Proc, m: Move)
    requires Barren(s, q) && RelayStep(s, q) == Some(m)
    ensures Barren(m.sh, m.q)
  {
  }

  /** A worker without any quota is refused. */
  lemma BarrenSpawn(s: State, pid: int, c: Choice, m: Move)
    requires Inv(s) && pid in s.procs && s.procs[pid].pc.DoBelt? && s.procs[pid].pc.bop.Spawn?
    requires Barren(s.sh, s.procs[pid]) && ProcStep(s.sh, pid, s.procs[pid], c) == Some(m)
    ensures Barren(m.sh, m.q)
  {
    hide BaseOk, RegistryOk, FloorOk, YardOk, AccountsOk, RejectOk, StopOk, ProgramsOk, ProcStep, SessionBody;
    var m' := SessionTheorems.SpawnStep(s, pid, c);
    QuotaRegistry(s, pid, Spawn, m');
    BarrenRefusal(s.sh, pid, s.procs[pid], m);
  }

  lemma BarrenRefusal(s: Memory, pid: int, q: Proc, m: Move)
    requires SessionBody(s, pid, q, Spawn, s.belt.users) == Some(m) && m.q.pc != UnlockBelt(Make) && !s.running && s.full == 0
    ensures Barren(m.sh, m.q)
  {
  }

  lemma StrandedAct(s: State, pid: int, c: Choice, m: Move, d: int)
    requires Inv(s) && Stranded(s, d) && pid in s.procs && !c.Interrupt? && ProcStep(s.sh, pid, s.procs[pid], c) == Some(m)
    ensures Barren(m.sh, m.q) && pid != d
  {
    hide ProcStep, FloorOk, YardOk, AccountsOk, RejectOk, StopOk, ProgramsOk, BaseOk, RegistryOk;
    var q := s.procs[pid];
    if pid == d {
      Blocked(s.sh, pid, q, c);
      assert false;
    }
    if AtDispatcher(Place(q.pc)) {
      OneDispatcher(s, pid, d);
      assert false;
    }
    if q.pc.At? {
      BarrenPoint(s.sh, pid, q, c, m);
    } else if q.pc.DoBelt? && q.pc.bop.Spawn? {
      BarrenSpawn(s, pid, c, m);
    } else {
      BarrenHold(s.sh, pid, q, c, m);
    }
  }

  lemma Blocked(s: Memory, pid: int, q: Proc, c: Choice)
    requires (q.pc == At(WaitFull) && s.full == 0) || (q.pc == At(WaitEmpty) && s.empty == 0) || q.pc == At(Exited)
    ensures !c.Interrupt? ==> ProcStep(s, pid, q, c).None?
  {
  }

  lemma StrandedStep(s: State, l: Label, d: int)
    requires Inv(s) && Stranded(s, d) && Step(s, l).Some? && !Interruption(l)
    ensures Stranded(Step(s, l).value, d) && Step(s, l).value.procs[d] == s.procs[d]
  {
    hide Inv, ProcStep, CanSignal;
    if l.Fork? {
      NewbornIsBarren(Step(s, l).value.procs[l.pid]);
    } else if l.Act? {
      StrandedAct(s, l.pid, l.choice, ProcStep(s.sh, l.pid, s.procs[l.pid], l.choice).value, d);
    }
  }

  lemma NewbornIsBarren(q: Proc)
    requires q.pc == At(WantBelt(Login))
    ensures !CanSignal(q)
  {
  }

  /** Such a dispatcher waits for ever: over every run it stays where it is, whatever the other
      processes do, unless its wait is interrupted from outside. */
  lemma {:induction false} StrandedForEver(s: State, ls: seq<Label>, d: int)
    requires Inv(s) && Stranded(s, d) && Exec(s, ls).Some? && Uninterrupted(ls)
    ensures var s' := Exec(s, ls).value; Inv(s') && Stranded(s', d) && s'.procs[d] == s.procs[d]
  {
    hide Step, Stranded, Inv;
    if ls != [] {
      var before, l := ls[..|ls| - 1], ls[|ls| - 1];
      StrandedForEver(s, before, d);
      StrandedStep(Exec(s, before).value, l, d);
      StepInv(Exec(s, before).value, l);
    }
  }

  /** The process stays where it is in every run without interruptions. */
  ghost predicate WaitsForEver(s: State, p: int) {
    p in s.procs && forall s' :: Path(s, s') ==> p in s'.procs && s'.procs[p] == s.procs[p]
  }

  /** A dispatcher that waits for a package when the system has stopped is never released exactly if
      no package is signalled and no worker has one on its way. */
  lemma DispatcherStrandedExactlyWhen(s: State, capacity: nat, d: int)
    requires Reachable(s, capacity) && !s.sh.running && d in s.procs && s.procs[d].pc == At(WaitFull)
    ensures WaitsForEver(s, d) <==> s.sh.full == 0 && forall p :: p in s.procs ==> !CanSignal(s.procs[p])
  {
    hide Reachable, Inv, Exec, CanSignal;
    if Stranded(s, d) {
      ReachableInv(s, capacity);
      forall s' | Path(s, s')
        ensures d in s'.procs && s'.procs[d] == s.procs[d]
      {
        var ls :| Uninterrupted(ls) && Exec(s, ls) == Some(s');
        StrandedForEver(s, ls, d);
      }
    } else {
      Stay(s);
      var s1 := s;
      if s.sh.full == 0 {
        var p :| p in s.procs && CanSignal(s.procs[p]);
        s1 := Release(s, s, capacity, d, p);
      }
      var s2 := TakesPackage(s, s1, capacity, d);
      assert Path(s, s2);
    }
  }

  lemma TakesPackage(a: State, s: State, capacity: nat, d: int) returns (s': State)
    requires On(a, s, capacity) && d in s.procs && s.procs[d].pc == At(WaitFull) && s.sh.full > 0
    ensures On(a, s', capacity) && s'.procs == s.procs[d := s.procs[d].(pc := At(WantBelt(Pop)))]
    ensures s'.sh == s.sh.(full := s.sh.full - 1)
  {
    hide Path, Reachable;
    var m := Move(s.sh.(full := s.sh.full - 1), s.procs[d].(pc := At(WantBelt(Pop))));
    Move1(a, s, capacity, d, Go, m);
    s' := After(s, d, m);
  }

  /** Stranding does happen, with a belt of any size: the dispatcher is started and waits, and an
      administrator stops the system, to the end of the scan. */
  lemma StrandingHappens(capacity: nat) returns (s: State)
    requires capacity > 0
    ensures Reachable(s, capacity) && Stranded(s, 2) && s.sh.log.swept == MAX_USERS_SESSIONS
    ensures s.procs.Keys == {2, 4} && s.procs[4].pc == At(Exited)
  {
    s := LoneDispatcher(capacity);
    hide Calm;
    s := StopAll(s, capacity);
    CalmReaches(s, capacity);
  }

  lemma LoneDispatcher(capacity: nat) returns (s: State)
    requires capacity > 0
    ensures AdminReady(s, capacity) && s.procs.Keys == {2, 4} && s.procs[2].pc == At(WaitFull) && s.sh.full == 0
  {
    hide Calm;
    var i, j;
    s, i, j := HireDispatcher(capacity);
    s := AwaitPackage(s, capacity, 2);
  }

  lemma HireDispatcher(capacity: nat) returns (s: State, i: nat, j: nat)
    requires capacity > 0
    ensures Calm(s, capacity) && s.sh.running && s.sh.full == 0
    ensures s.procs == map[2 := Joined(Dispatcher, DISPATCHER_NAME, {Operator}, i), 4 := Joined(Terminal, TERMINAL_NAME, {Operator, SysAdmin}, j)]
  {
    StartCalm(capacity);
    StoredApart(DISPATCHER_NAME, TERMINAL_NAME);
    hide Stored, Calm;
    s, i := Join(Init(capacity), capacity, 2, Dispatcher, DISPATCHER_NAME, {Operator}, 0);
    assert s.procs == map[2 := Joined(Dispatcher, DISPATCHER_NAME, {Operator}, i)];
    s, j := Join(s, capacity, 4, Terminal, TERMINAL_NAME, {Operator, SysAdmin}, 1);
  }
}
