/** The shape of processes: the logical place of a program counter, the local data that goes
    with it, and mutual exclusion of the two mutexes. */
module Structure {
  import opened Shared
  import opened Protocol
  import opened SessionTable
  import Ledger

  /** The logical place of a process: taking and releasing a mutex does not move it. */
  function Place(pc: PC): Point {
    match pc
    case At(pt) => pt
    case InBelt(op) => WantBelt(op)
    case DoBelt(op, _) => WantBelt(op)
    case LoginMark(_) => WantBelt(Login)
    case LoginName(_) => WantBelt(Login)
    case LoginPid(_) => WantBelt(Login)
    case UnlockBelt(next) => next
    case InDock(op) => WantDock(op)
    case DoDock(op, _) => WantDock(op)
    case SendDock(_, next) => next
    case UnlockDock(next) => next
  }

  predicate HoldsBelt(pc: PC) {
    pc.InBelt? || pc.DoBelt? || pc.LoginMark? || pc.LoginName? || pc.LoginPid? || pc.UnlockBelt?
  }

  predicate HoldsDock(pc: PC) {
    pc.InDock? || pc.DoDock? || pc.SendDock? || pc.UnlockDock?
  }

  /** Places in the dispatcher's loop. */
  predicate AtDispatcher(pt: Point) {
    pt.WaitFull? || pt.FreeEmpty? || pt.GiveBackFull? || pt.DispHead? || pt.DispRetry? ||
    pt == WantBelt(Pop) || pt == WantDock(Load)
  }

  /** Before the login has completed, or after the logout. */
  predicate NoSession(pt: Point) {
    pt == WantBelt(Login) || pt.Exited?
  }

  /** Places at which the local package variable is in use. */
  predicate HasPackage(pt: Point) {
    || pt.LoadTest? || pt.LoadDivide? || pt.WaitEmpty? || pt == WantBelt(Push) || pt.Crashed?
    || pt.FreeEmpty? || pt.DispRetry? || pt == WantDock(Load)
  }

  /** Places at which a process has no dealings with the belt's workers or its semaphores. */
  predicate OffFloor(pt: Point) {
    || pt.WantDock? || (pt.WantBelt? && (pt.bop.Login? || pt.bop.Logout? || pt.bop.Register?))
    || pt.TruckHead? || pt.TruckWait? || pt.TruckGot? || pt.DispHead? || pt.DispRetry?
    || pt.ExprHead? || pt.ExprWait? || pt.MonHead? || pt.Exited? || AtTerminal(pt)
  }

  predicate ProcOk(q: Proc) {
    var pt := Place(q.pc);
    && (AtDispatcher(pt) ==> q.kind == Dispatcher)
    && (if NoSession(pt) then q.slot == -1 else q.slot >= 0)
    && |q.pkg| == (if HasPackage(pt) then 1 else 0)
    && NameFits(q.kind, q.name)
  }

  predicate SameProcess(q: Proc, q': Proc) {
    q'.kind == q.kind && q'.name == q.name && q'.role == q.role && q'.quota == q.quota
  }

  /** A copy of guarded data that a process is about to write from is current. */
  predicate Fresh(sh: Memory, q: Proc) {
    && (q.pc.DoBelt? ==> q.pc.seenBelt == sh.belt)
    && (q.pc.DoDock? ==> q.pc.seenDock == sh.dock)
  }

  function One(b: bool): nat { if b then 1 else 0 }

  /** What every step does about the mutexes: it takes or returns a unit together with entering
      or leaving the critical section, and writes guarded data only inside. */
  ghost predicate Guarded(s: Memory, q: Proc, m: Move) {
    && ProcOk(m.q) && SameProcess(q, m.q) && Fresh(m.sh, m.q)
    && m.sh.beltMutex + One(HoldsBelt(m.q.pc)) == s.beltMutex + One(HoldsBelt(q.pc))
    && m.sh.dockMutex + One(HoldsDock(m.q.pc)) == s.dockMutex + One(HoldsDock(q.pc))
    && (m.sh.belt != s.belt ==> HoldsBelt(q.pc))
    && (m.sh.dock != s.dock ==> HoldsDock(q.pc))
  }

  lemma SessionShape(s: Memory, pid: int, q: Proc, op: BeltOp, v: Belt, m: Move)
    requires ProcOk(q) && q.pc == DoBelt(op, v) && SessionBody(s, pid, q, op, v.users) == Some(m)
    ensures Guarded(s, q, m) && HoldsBelt(m.q.pc) && m.q.pkg == q.pkg && m.q.rejects == q.rejects
    ensures m.sh == s.(belt := s.belt.(users := m.sh.belt.users))
  {
    hide LoginSlot, SetUser, SpawnEntry, LogoutEntry, FinishEntry, User;
    match op
    case Login =>
    case Logout =>
    case Spawn =>
    case Finish =>
    case _ =>
  }

  lemma FloorShape(s: Memory, q: Proc, op: BeltOp, v: Belt, m: Move)
    requires ProcOk(q) && q.pc == DoBelt(op, v) && FloorBody(s, q, op, v) == Some(m)
    ensures Guarded(s, q, m) && HoldsBelt(m.q.pc)
    ensures m.sh == s.(belt := m.sh.belt, log := m.sh.log) && m.sh.belt.users == s.belt.users
  {
    match op
    case Register =>
    case Unregister =>
    case Push =>
    case Pop =>
    case _ =>
  }

  lemma LoginShape(s: Memory, pid: int, q: Proc, m: Move)
    requires ProcOk(q) && LoginStage(s, pid, q) == Some(m)
    ensures Guarded(s, q, m) && HoldsBelt(m.q.pc) && m.q.pkg == q.pkg == [] && OffFloor(Place(m.q.pc))
    ensures m.sh == s.(belt := s.belt.(users := m.sh.belt.users))
  {
    match q.pc
    case LoginMark(_) =>
    case LoginName(_) =>
    case LoginPid(_) =>
    case _ =>
  }

  lemma TruckShape(s: Memory, pid: int, q: Proc, op: DockOp, d: Ledger.Dock, c: Choice, m: Move)
    requires ProcOk(q) && q.pc == DoDock(op, d) && TruckBody(s, pid, q, op, d, c) == Some(m)
    ensures Guarded(s, q, m) && HoldsDock(m.q.pc) && m.q == q.(pc := m.q.pc) && OffFloor(Place(m.q.pc))
    ensures m.sh == s.(dock := m.sh.dock)
  {
    hide Ledger.Claim, Ledger.Shutdown, Ledger.Depart, Ledger.Cleanup;
    match op
    case Claim =>
    case Shutdown =>
    case Depart =>
    case Cleanup =>
    case _ =>
  }

  lemma LoaderShape(s: Memory, q: Proc, op: DockOp, d: Ledger.Dock, c: Choice, m: Move)
    requires ProcOk(q) && q.pc == DoDock(op, d) && LoaderBody(s, q, op, d, c) == Some(m)
    ensures Guarded(s, q, m) && HoldsDock(m.q.pc) && OffFloor(Place(m.q.pc))
    ensures m.q.slot == q.slot && (m.q.pkg == q.pkg || m.q.pkg == [])
    ensures m.sh == s.(dock := m.sh.dock, log := s.log.(hand := m.sh.log.hand))
  {
    hide Ledger.LoadPackage, Ledger.LoadBatch;
    match op
    case Load =>
    case Batch =>
    case _ =>
  }

  lemma RelayShape(s: Memory, q: Proc, m: Move)
    requires ProcOk(q) && RelayStep(s, q) == Some(m)
    ensures Guarded(s, q, m) && m.q == q.(pc := m.q.pc) && Place(m.q.pc) == Place(q.pc) && !Logging(m.q.pc)
    ensures m.sh == s.(beltMutex := m.sh.beltMutex, dockMutex := m.sh.dockMutex, queue := m.sh.queue)
  {
    hide Send;
    match q.pc
    case InBelt(_) =>
    case UnlockBelt(_) =>
    case InDock(_) =>
    case SendDock(_, _) =>
    case UnlockDock(_) =>
    case _ =>
  }

  lemma EnterShape(s: Memory, q: Proc, pt: Point, m: Move)
    requires ProcOk(q) && q.pc == At(pt) && EnterStep(s, q, pt) == Some(m)
    ensures Guarded(s, q, m) && m.q == q.(pc := m.q.pc) && Place(m.q.pc) == Place(q.pc) && !Logging(m.q.pc)
    ensures m.sh == s.(beltMutex := m.sh.beltMutex, dockMutex := m.sh.dockMutex)
  {
    match pt
    case WantBelt(_) =>
    case WantDock(_) =>
    case _ =>
  }

  lemma TokenShape(s: Memory, q: Proc, pt: Point, c: Choice, m: Move)
    requires ProcOk(q) && q.pc == At(pt) && TokenStep(s, q, pt, c) == Some(m)
    ensures ProcOk(m.q) && m.q == q.(pc := m.q.pc) && m.q.pc.At?
    ensures m.sh == s.(empty := m.sh.empty, full := m.sh.full, log := m.sh.log)
    ensures m.sh.log == s.log.(emptyInterrupts := m.sh.log.emptyInterrupts, fullInterrupts := m.sh.log.fullInterrupts)
  {
    match pt
    case WaitEmpty =>
    case WaitFull =>
    case PutFull =>
    case PutBackEmpty =>
    case FreeEmpty =>
    case GiveBackFull =>
    case _ =>
  }

  lemma LocalShape(s: Memory, pid: int, q: Proc, pt: Point, c: Choice, m: Move)
    requires ProcOk(q) && q.pc == At(pt) && LocalStep(s, pid, q, pt, c) == Some(m)
    ensures SameProcess(q, m.q) && ProcOk(m.q) && m.q.pc.At? && m.q.slot == q.slot && m.q.rejects == q.rejects
    ensures m.sh == s.(queue := m.sh.queue, log := m.sh.log)
    ensures m.sh.log == s.log.(dropped := m.sh.log.dropped, hand := m.sh.log.hand)
  {
    hide LocalStep, ProcOk;
    if pt.WorkHead? || pt.Make? || pt.LoadTest? || pt.LoadDivide? || pt.DispHead? || pt.DispRetry? {
      FloorLocal(s, pid, q, pt, c, m);
    } else {
      YardLocal(s, pid, q, pt, c, m);
    }
  }

  /** The steps of workers and of the dispatcher. */
  lemma FloorLocal(s: Memory, pid: int, q: Proc, pt: Point, c: Choice, m: Move)
    requires ProcOk(q) && q.pc == At(pt) && LocalStep(s, pid, q, pt, c) == Some(m)
    requires pt.WorkHead? || pt.Make? || pt.LoadTest? || pt.LoadDivide? || pt.DispHead? || pt.DispRetry?
    ensures SameProcess(q, m.q) && ProcOk(m.q) && m.q.pc.At? && m.q.slot == q.slot && m.q.rejects == q.rejects
    ensures m.sh == s.(log := m.sh.log)
    ensures m.sh.log == s.log.(dropped := m.sh.log.dropped, hand := m.sh.log.hand)
  {
    match pt
    case WorkHead =>
    case Make =>
    case LoadTest =>
    case LoadDivide =>
    case DispHead =>
    case DispRetry =>
  }

  /** Those of trucks, the express process and the monitor. */
  lemma YardLocal(s: Memory, pid: int, q: Proc, pt: Point, c: Choice, m: Move)
    requires ProcOk(q) && q.pc == At(pt) && LocalStep(s, pid, q, pt, c) == Some(m)
    requires !(pt.WorkHead? || pt.Make? || pt.LoadTest? || pt.LoadDivide? || pt.DispHead? || pt.DispRetry?)
    ensures SameProcess(q, m.q) && ProcOk(m.q) && m.q.pc.At? && m.q.slot == q.slot && m.q.rejects == q.rejects
    ensures m.sh == s.(queue := m.sh.queue)
  {
    match pt
    case TruckHead =>
    case TruckWait =>
    case TruckGot(_) =>
    case ExprHead =>
    case ExprWait =>
    case MonHead =>
    case _ =>
  }

  lemma TerminalShape(s: Memory, pid: int, q: Proc, pt: Point, c: Choice, m: Move)
    requires ProcOk(q) && q.pc == At(pt) && TerminalStep(s, pid, q, pt, c) == Some(m)
    ensures ProcOk(m.q) && m.q == q.(pc := m.q.pc)
    ensures m.q.pc.At? && (AtTerminal(m.q.pc.point) || m.q.pc.point == WantBelt(Logout))
    ensures m.sh == s.(queue := m.sh.queue, log := m.sh.log, running := m.sh.running)
    ensures m.sh.log == s.log.(swept := m.sh.log.swept)
  {
    hide Send, HasFlag, User;
    match pt
    case TermHead =>
    case TermIdle =>
    case DepartId =>
    case DepartSend(_) =>
    case StopScan(_) =>
    case StopPid(_) =>
    case StopSend(_, _) =>
    case VipScan(_) =>
    case VipPid(_) =>
    case VipSend(_) =>
    case _ =>
  }
}
