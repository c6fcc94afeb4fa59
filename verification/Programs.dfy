/** The programs of the processes: the program counters that a process of each kind can have, and
    how much of its program is left once the system has stopped. */
module Programs {
  import opened Shared
  import opened SessionTable
  import BeltRing
  import Ledger
  import opened Protocol
  import opened Structure
  import opened Exclusion
  import opened ControlFlow
  import opened Shutdown
  import opened Registry

  /** The points of the program of a process of the given kind. */
  predicate InProgram(kind: Kind, pt: Point) {
    || pt == WantBelt(Login) || pt == WantBelt(Logout) || pt.Exited?
    || (match kind
        case Worker =>
          || pt.WorkHead? || pt.Make? || pt.LoadTest? || pt.LoadDivide? || pt.WaitEmpty? || pt.PutFull? || pt.PutBackEmpty?
          || pt.Crashed? || (pt.WantBelt? && !pt.bop.Pop?)
        case Truck =>
          pt.TruckHead? || pt.TruckWait? || pt.TruckGot? || (pt.WantDock? && !pt.dop.Load? && !pt.dop.Batch?)
        case Dispatcher => AtDispatcher(pt)
        case Express => pt.ExprHead? || pt.ExprWait? || pt == WantDock(Batch)
        case Terminal => AtTerminal(pt)
        case Monitor => pt.MonHead?)
  }

  /** Where a critical section can lead. */
  predicate Landing(kind: Kind, pt: Point) {
    || pt == Entry(kind) || pt == WantBelt(Logout) || pt == WantDock(Cleanup) || pt.Exited?
    || pt.WorkHead? || pt.Make? || pt.PutFull? || pt.PutBackEmpty? || pt.FreeEmpty? || pt.GiveBackFull?
    || pt.TruckHead? || pt.TruckWait? || pt.DispHead? || pt.DispRetry? || pt.ExprHead?
  }

  /** A stop scan is at a slot of the table, and a critical section leads to where it can. */
  predicate Regular(kind: Kind, pc: PC) {
    && (Place(pc).StopPid? || Place(pc).StopSend? ==> Place(pc).i < MAX_USERS_SESSIONS)
    && (pc.UnlockBelt? || pc.UnlockDock? || pc.SendDock? ==> Landing(kind, pc.next))
    && (pc.SendDock? ==> pc.next.DispHead? || pc.next.DispRetry? || pc.next.ExprHead?)
  }

  predicate ProgramPC(kind: Kind, pc: PC) {
    InProgram(kind, Place(pc)) && Regular(kind, pc)
  }

  /** Steps from the first point of a program, reached by the login, to its end. */
  function EntryRank(kind: Kind): nat {
    match kind
    case Worker => 13
    case Truck => 9
    case _ => 5
  }

  /** Slots that a scan has before it. */
  function Rest(i: nat): nat {
    if i < MAX_USERS_SESSIONS then MAX_USERS_SESSIONS - i else 0
  }

  /** Steps to the end of the program from a point, once the system has stopped, at most. */
  function PointRank(kind: Kind, pt: Point): nat {
    match pt
    case WantBelt(op) =>
      (match op
       case Login => EntryRank(kind) + 7
       case Logout => 4
       case Register => 13
       case Unregister => 8
       case Spawn => 26
       case Finish => 13
       case Push => 18
       case Pop => 11)
    case WantDock(op) =>
      (match op
       case Claim => 18
       case Depart => 13
       case Shutdown => 12
       case Cleanup => 8
       case Load => 11
       case Batch => 10)
    case WorkHead => 9
    case Make => 22
    case LoadTest => 21
    case LoadDivide => 20
    case WaitEmpty => 19
    case PutFull => 14
    case PutBackEmpty => 14
    case TruckHead => 9
    case TruckWait => 14
    case TruckGot(_) => 13
    case WaitFull => 12
    case FreeEmpty => 7
    case GiveBackFull => 6
    case DispHead => 5
    case DispRetry => 6
    case ExprHead => 5
    case ExprWait => 11
    case MonHead => 5
    case TermHead => 5
    case TermIdle => 636
    case DepartId => 7
    case DepartSend(_) => 6
    case VipScan(i) => 8 + Rest(i)
    case VipPid(_) => 7
    case VipSend(_) => 6
    case StopScan(i) => 5 + 3 * Rest(i)
    case StopPid(i) => 4 + 3 * Rest(i)
    case StopSend(i, _) => 3 + 3 * Rest(i)
    case Exited => 0
    case Crashed => 0
  }

  /** The same from a program counter: a critical section has a lock, a read, a write and an
      unlock, a login three more writes, and a departure is sent before the unlock. */
  function Rank(kind: Kind, pc: PC): nat {
    match pc
    case At(pt) => PointRank(kind, pt)
    case InBelt(op) => PointRank(kind, WantBelt(op)) - 1
    case DoBelt(op, _) => PointRank(kind, WantBelt(op)) - 2
    case LoginMark(_) => EntryRank(kind) + 4
    case LoginName(_) => EntryRank(kind) + 3
    case LoginPid(_) => EntryRank(kind) + 2
    case UnlockBelt(next) => PointRank(kind, next) + 1
    case InDock(op) => PointRank(kind, WantDock(op)) - 1
    case DoDock(op, _) => PointRank(kind, WantDock(op)) - 2
    case SendDock(_, next) => PointRank(kind, next) + 2
    case UnlockDock(next) => PointRank(kind, next) + 1
  }

  /** The longest way from anywhere in a program to its end, after the stop. */
  function Bound(kind: Kind): nat {
    match kind
    case Worker => 26
    case Truck => 18
    case Terminal => 636
    case _ => 12
  }

  lemma RankAtMost(kind: Kind, pc: PC)
    requires ProgramPC(kind, pc)
    ensures Rank(kind, pc) <= Bound(kind)
  {
    hide Landing, InProgram, PointRank;
    if pc.At? {
      PointAtMost(kind, pc.point);
    } else if pc.UnlockBelt? || pc.UnlockDock? || pc.SendDock? {
      LandingAtMost(kind, pc.next);
    } else {
      SectionAtMost(kind, pc);
    }
  }

  lemma PointAtMost(kind: Kind, pt: Point)
    requires InProgram(kind, pt)
    ensures PointRank(kind, pt) <= Bound(kind)
  {
    match kind
    case Worker =>
    case Truck =>
    case Dispatcher =>
    case Express =>
    case Terminal =>
    case Monitor =>
  }

  lemma SectionAtMost(kind: Kind, pc: PC)
    requires !pc.At? && !pc.UnlockBelt? && !pc.UnlockDock? && !pc.SendDock? && InProgram(kind, Place(pc))
    ensures Rank(kind, pc) <= Bound(kind)
  {
    hide InProgram;
    PointAtMost(kind, Place(pc));
  }

  lemma LandingAtMost(kind: Kind, pt: Point)
    requires InProgram(kind, pt) && Landing(kind, pt)
    ensures PointRank(kind, pt) + 2 <= Bound(kind)
  {
    match pt
    case WantBelt(_) =>
    case WantDock(_) =>
    case Make =>
    case PutFull =>
    case PutBackEmpty =>
    case WorkHead =>
    case TruckHead =>
    case TruckWait =>
    case _ =>
  }

  /** A step of a regular process leaves it regular and, after the stop, brings it closer to its end. */
  predicate Sinks(s: Memory, q: Proc, m: Move) {
    && m.q.kind == q.kind && Regular(q.kind, m.q.pc)
    && (!s.running ==> Rank(q.kind, m.q.pc) < Rank(q.kind, q.pc))
  }

  lemma LocalSinks(s: Memory, pid: int, q: Proc, pt: Point, c: Choice, m: Move)
    requires q.pc == At(pt) && Regular(q.kind, q.pc) && LocalStep(s, pid, q, pt, c) == Some(m)
    ensures Sinks(s, q, m)
  {
    hide LocalStep, Regular, Sinks;
    if pt.WorkHead? || pt.Make? || pt.LoadTest? || pt.LoadDivide? || pt.DispHead? || pt.DispRetry? {
      FloorLocalSinks(s, pid, q, pt, c, m);
    } else {
      YardLocalSinks(s, pid, q, pt, c, m);
    }
  }

  lemma FloorLocalSinks(s: Memory, pid: int, q: Proc, pt: Point, c: Choice, m: Move)
    requires q.pc == At(pt) && LocalStep(s, pid, q, pt, c) == Some(m)
    requires pt.WorkHead? || pt.Make? || pt.LoadTest? || pt.LoadDivide? || pt.DispHead? || pt.DispRetry?
    ensures Sinks(s, q, m)
  {
    match pt
    case WorkHead =>
    case Make =>
    case LoadTest =>
    case LoadDivide =>
    case DispHead =>
    case DispRetry =>
  }

  lemma YardLocalSinks(s: Memory, pid: int, q: Proc, pt: Point, c: Choice, m: Move)
    requires q.pc == At(pt) && LocalStep(s, pid, q, pt, c) == Some(m)
    requires !(pt.WorkHead? || pt.Make? || pt.LoadTest? || pt.LoadDivide? || pt.DispHead? || pt.DispRetry?)
    ensures Sinks(s, q, m)
  {
    match pt
    case TruckHead =>
    case TruckWait =>
    case TruckGot(_) =>
    case ExprHead =>
    case ExprWait =>
    case MonHead =>
    case _ =>
  }

  lemma TerminalSinks(s: Memory, pid: int, q: Proc, pt: Point, c: Choice, m: Move)
    requires q.pc == At(pt) && AtTerminal(pt) && Regular(q.kind, q.pc) && TerminalStep(s, pid, q, pt, c) == Some(m)
    requires |s.belt.users| == MAX_USERS_SESSIONS
    ensures Sinks(s, q, m)
  {
    hide TerminalStep, Regular, Sinks;
    if pt.StopScan? || pt.StopPid? || pt.StopSend? {
      ScanSinks(s, pid, q, pt, c, m);
    } else if pt.VipScan? || pt.VipPid? || pt.VipSend? {
      VipSinks(s, pid, q, pt, c, m);
    } else {
      PromptSinks(s, pid, q, pt, c, m);
    }
  }

  lemma ScanSinks(s: Memory, pid: int, q: Proc, pt: Point, c: Choice, m: Move)
    requires q.pc == At(pt) && (pt.StopScan? || pt.StopPid? || pt.StopSend?) && Regular(q.kind, q.pc)
    requires TerminalStep(s, pid, q, pt, c) == Some(m) && |s.belt.users| == MAX_USERS_SESSIONS
    ensures Sinks(s, q, m)
  {
    hide Send, User;
    match pt
    case StopScan(_) =>
    case StopPid(_) =>
    case StopSend(_, _) =>
  }

  lemma VipSinks(s: Memory, pid: int, q: Proc, pt: Point, c: Choice, m: Move)
    requires q.pc == At(pt) && (pt.VipScan? || pt.VipPid? || pt.VipSend?)
    requires TerminalStep(s, pid, q, pt, c) == Some(m) && |s.belt.users| == MAX_USERS_SESSIONS
    ensures Sinks(s, q, m)
  {
    hide Send, User;
    match pt
    case VipScan(_) =>
    case VipPid(_) =>
    case VipSend(_) =>
  }

  lemma PromptSinks(s: Memory, pid: int, q: Proc, pt: Point, c: Choice, m: Move)
    requires q.pc == At(pt) && (pt.TermHead? || pt.TermIdle? || pt.DepartId? || pt.DepartSend?)
    requires TerminalStep(s, pid, q, pt, c) == Some(m)
    ensures Sinks(s, q, m)
  {
    hide Send, HasFlag, User;
    match pt
    case TermHead =>
    case TermIdle =>
    case DepartId =>
    case DepartSend(_) =>
  }

  lemma TokenSinks(s: Memory, q: Proc, pt: Point, c: Choice, m: Move)
    requires q.pc == At(pt) && Regular(q.kind, q.pc) && TokenStep(s, q, pt, c) == Some(m)
    ensures Sinks(s, q, m)
  {
    match pt
    case WaitEmpty =>
    case WaitFull =>
    case PutFull =>
    case PutBackEmpty =>
    case FreeEmpty =>
    case GiveBackFull =>
    case _ =>
  }

  lemma EnterSinks(s: Memory, q: Proc, pt: Point, m: Move)
    requires q.pc == At(pt) && Regular(q.kind, q.pc) && EnterStep(s, q, pt) == Some(m)
    ensures Sinks(s, q, m)
  {
    match pt
    case WantBelt(_) =>
    case WantDock(_) =>
    case _ =>
  }

  lemma SessionSinks(s: Memory, pid: int, q: Proc, op: BeltOp, v: Belt, m: Move)
    requires q.pc == DoBelt(op, v) && Regular(q.kind, q.pc) && SessionBody(s, pid, q, op, v.users) == Some(m)
    ensures Sinks(s, q, m)
  {
    hide LoginSlot, SetUser, SetUsers;
    match op
    case Login =>
    case Logout =>
    case Spawn =>
    case Finish =>
    case _ =>
  }

  lemma FloorSinks(s: Memory, q: Proc, op: BeltOp, v: Belt, m: Move)
    requires q.pc == DoBelt(op, v) && Regular(q.kind, q.pc) && FloorBody(s, q, op, v) == Some(m)
    ensures Sinks(s, q, m)
  {
    hide BeltRing.Push, BeltRing.Pop;
    match op
    case Register =>
    case Unregister =>
    case Push =>
    case Pop =>
    case _ =>
  }

  lemma LoginSinks(s: Memory, pid: int, q: Proc, m: Move)
    requires Regular(q.kind, q.pc) && LoginStage(s, pid, q) == Some(m)
    ensures Sinks(s, q, m)
  {
    hide SetUser, SetUsers, Stored;
    match q.pc
    case LoginMark(_) =>
    case LoginName(_) =>
    case LoginPid(_) =>
    case _ =>
  }

  lemma DockSinks(s: Memory, pid: int, q: Proc, op: DockOp, d: Ledger.Dock, c: Choice, m: Move)
    requires q.pc == DoDock(op, d) && Regular(q.kind, q.pc) && TruckBody(s, pid, q, op, d, c) == Some(m)
    ensures Sinks(s, q, m)
  {
    hide Ledger.Claim, Ledger.Shutdown, Ledger.Depart, Ledger.Cleanup;
    match op
    case Claim =>
    case Shutdown =>
    case Depart =>
    case Cleanup =>
    case _ =>
  }

  lemma LoaderSinks(s: Memory, q: Proc, op: DockOp, d: Ledger.Dock, c: Choice, m: Move)
    requires q.pc == DoDock(op, d) && Regular(q.kind, q.pc) && LoaderBody(s, q, op, d, c) == Some(m)
    ensures Sinks(s, q, m)
  {
    hide Ledger.LoadPackage, Ledger.LoadBatch;
    match op
    case Load =>
    case Batch =>
    case _ =>
  }

  lemma RelaySinks(s: Memory, q: Proc, m: Move)
    requires Regular(q.kind, q.pc) && RelayStep(s, q) == Some(m)
    ensures Sinks(s, q, m)
  {
    hide Send;
    match q.pc
    case InBelt(_) =>
    case UnlockBelt(_) =>
    case InDock(_) =>
    case SendDock(_, _) =>
    case UnlockDock(_) =>
    case _ =>
  }

  lemma StepSinks(s: Memory, pid: int, q: Proc, c: Choice, m: Move)
    requires Regular(q.kind, q.pc) && |s.belt.users| == MAX_USERS_SESSIONS && ProcStep(s, pid, q, c) == Some(m)
    ensures Sinks(s, q, m)
  {
    hide SessionBody, FloorBody, LoaderBody, TruckBody, LoginStage, RelayStep, TerminalStep, EnterStep, TokenStep, LocalStep,
      Sinks, Regular;
    if q.pc.At? {
      var pt := q.pc.point;
      if AtTerminal(pt) {
        TerminalSinks(s, pid, q, pt, c, m);
      } else if pt.WantBelt? || pt.WantDock? {
        EnterSinks(s, q, pt, m);
      } else if AtToken(pt) {
        TokenSinks(s, q, pt, c, m);
      } else {
        LocalSinks(s, pid, q, pt, c, m);
      }
    } else if q.pc.DoBelt? {
      if SessionOp(q.pc.bop) {
        SessionSinks(s, pid, q, q.pc.bop, q.pc.seenBelt, m);
      } else {
        FloorSinks(s, q, q.pc.bop, q.pc.seenBelt, m);
      }
    } else if q.pc.DoDock? {
      if q.pc.dop.Load? || q.pc.dop.Batch? {
        LoaderSinks(s, q, q.pc.dop, q.pc.seenDock, c, m);
      } else {
        DockSinks(s, pid, q, q.pc.dop, q.pc.seenDock, c, m);
      }
    } else if Logging(q.pc) {
      LoginSinks(s, pid, q, m);
    } else {
      RelaySinks(s, q, m);
    }
  }

  /** Control flow does not leave a program, and a truck logs out only after its clean-up. */
  lemma ProgramFlow(kind: Kind, pt: Point, next: Point)
    requires Successor(kind, pt, next) && InProgram(kind, pt)
    ensures InProgram(kind, next)
    ensures kind == Truck && next == WantBelt(Logout) ==> pt == WantDock(Cleanup)
  {
    hide InProgram, Successor;
    match kind
    case Worker => WorkerFlow(pt, next);
    case Truck => TruckFlow(pt, next);
    case Dispatcher => DispatcherFlow(pt, next);
    case Express => ExpressFlow(pt, next);
    case Terminal => TerminalFlow(pt, next);
    case Monitor => MonitorFlow(pt, next);
  }

  lemma WorkerFlow(pt: Point, next: Point)
    requires Successor(Worker, pt, next) && InProgram(Worker, pt)
    ensures InProgram(Worker, next)
  {
    match pt
    case WantBelt(_) =>
    case _ =>
  }

  lemma TruckFlow(pt: Point, next: Point)
    requires Successor(Truck, pt, next) && InProgram(Truck, pt)
    ensures InProgram(Truck, next) && (next == WantBelt(Logout) ==> pt == WantDock(Cleanup))
  {
    match pt
    case WantDock(_) =>
    case _ =>
  }

  lemma DispatcherFlow(pt: Point, next: Point)
    requires Successor(Dispatcher, pt, next) && InProgram(Dispatcher, pt)
    ensures InProgram(Dispatcher, next)
  {
    if AtDispatcher(pt) {
      LoopFlow(pt, next);
    } else {
      hide AtDispatcher;
      match pt
      case WantBelt(_) =>
      case _ =>
    }
    if next == Entry(Dispatcher) {
      assert AtDispatcher(DispHead);
    }
  }

  lemma LoopFlow(pt: Point, next: Point)
    requires Successor(Dispatcher, pt, next) && AtDispatcher(pt)
    ensures AtDispatcher(next) || next == WantBelt(Logout)
  {
    hide AtTerminal;
    match pt
    case WantBelt(_) =>
    case WantDock(_) =>
    case WaitFull =>
    case FreeEmpty =>
    case GiveBackFull =>
    case DispHead =>
    case DispRetry =>
  }

  lemma ExpressFlow(pt: Point, next: Point)
    requires Successor(Express, pt, next) && InProgram(Express, pt)
    ensures InProgram(Express, next)
  {
    match pt
    case WantBelt(_) =>
    case WantDock(_) =>
    case _ =>
  }

  lemma TerminalFlow(pt: Point, next: Point)
    requires Successor(Terminal, pt, next) && InProgram(Terminal, pt)
    ensures InProgram(Terminal, next)
  {
    if AtTerminal(pt) {
      PromptFlow(pt, next);
    } else {
      hide AtTerminal;
      match pt
      case WantBelt(_) =>
      case _ =>
    }
  }

  lemma PromptFlow(pt: Point, next: Point)
    requires Successor(Terminal, pt, next) && AtTerminal(pt)
    ensures AtTerminal(next) || next == WantBelt(Logout)
  {
  }

  lemma MonitorFlow(pt: Point, next: Point)
    requires Successor(Monitor, pt, next) && InProgram(Monitor, pt)
    ensures InProgram(Monitor, next)
  {
    match pt
    case WantBelt(_) =>
    case WantDock(_) =>
    case _ =>
  }

  /** Every step of every process stays in its program and, after the stop, brings it closer to the
      end of it. */
  lemma WindsDown(s: Memory, pid: int, q: Proc, c: Choice, m: Move)
    requires ProcOk(q) && ProgramPC(q.kind, q.pc) && |s.belt.users| == MAX_USERS_SESSIONS && ProcStep(s, pid, q, c) == Some(m)
    ensures m.q.kind == q.kind && ProgramPC(q.kind, m.q.pc)
    ensures !s.running ==> Rank(q.kind, m.q.pc) < Rank(q.kind, q.pc)
    ensures q.kind == Truck && Place(m.q.pc) == WantBelt(Logout) ==> Place(q.pc) == WantBelt(Logout) || Place(q.pc) == WantDock(Cleanup)
  {
    hide ProcStep, ProcOk, Regular, InProgram, Rank, Successor, Place;
    StepSinks(s, pid, q, c, m);
    ProcFlow(s, pid, q, c, m);
    if Place(m.q.pc) != Place(q.pc) {
      ProgramFlow(q.kind, Place(q.pc), Place(m.q.pc));
    }
  }

  /** A process is in the program of its kind, and a truck logs out only after the stop. */
  predicate ProgramFacts(sh: Memory, q: Proc) {
    ProgramPC(q.kind, q.pc) && (q.kind == Truck && Place(q.pc) == WantBelt(Logout) ==> !sh.running)
  }

  ghost predicate ProgramsOk(s: State) {
    forall p :: p in s.procs ==> ProgramFacts(s.sh, s.procs[p])
  }

  lemma ProgramsAct(s: State, pid: int, c: Choice, m: Move)
    requires BaseOk(s) && RegistryOk(s) && StopOk(s) && ProgramsOk(s) && pid in s.procs && ProcStep(s.sh, pid, s.procs[pid], c) == Some(m)
    ensures ProgramsOk(State(m.sh, s.procs[pid := m.q]))
  {
    assert ProcOk(s.procs[pid]) && StopFacts(s.sh, s.procs[pid]) && ProgramFacts(s.sh, s.procs[pid]) && |s.sh.belt.users| == MAX_USERS_SESSIONS;
    hide ProcStep, ProcOk, BaseOk, StopOk, RegistryOk, ProgramPC, Rank;
    StepStops(s.sh, pid, s.procs[pid], c);
    WindsDown(s.sh, pid, s.procs[pid], c, m);
  }
}
