/** The control-flow graph of the programs, at the granularity of places. */
module ControlFlow {
  import opened Shared
  import opened SessionTable
  import Ledger
  import opened Protocol
  import opened Structure

  /** The successors of a place in the program of a process of the given kind. */
  predicate Successor(kind: Kind, pt: Point, next: Point) {
    match pt
    case WantBelt(op) =>
      (match op
       case Login => next == Exited || next == Entry(kind)
       case Logout => next == Exited
       case Register => next == WorkHead || next == WantBelt(Logout)
       case Unregister => next == WantBelt(Logout)
       case Spawn => next == Make || next == WorkHead
       case Finish => next == WorkHead
       case Push => next == PutFull || next == PutBackEmpty
       case Pop => next == FreeEmpty || next == GiveBackFull)
    case WantDock(op) =>
      (match op
       case Claim => next == TruckHead || next == TruckWait
       case Shutdown => next == WantDock(Cleanup)
       case Depart => next == TruckHead
       case Cleanup => next == WantBelt(Logout)
       case Load => next == DispRetry || next == DispHead
       case Batch => next == ExprHead)
    case WaitEmpty => next == WantBelt(Push)
    case WaitFull => next == WantBelt(Pop)
    case PutFull => next == WantBelt(Finish)
    case PutBackEmpty => next == WantBelt(Finish)
    case FreeEmpty => next == DispRetry
    case GiveBackFull => next == DispHead
    case WorkHead => next == WantBelt(Spawn) || next == WantBelt(Unregister)
    case Make => next == LoadTest
    case LoadTest => next == WaitEmpty || next == LoadDivide
    case LoadDivide => next == WaitEmpty || next == Crashed
    case TruckHead => next == WantDock(Claim) || next == WantDock(Cleanup)
    case TruckWait => next.TruckGot?
    case TruckGot(_) => next == WantDock(Shutdown) || next == WantDock(Depart)
    case DispHead => next == WaitFull || next == WantBelt(Logout)
    case DispRetry => next == WantDock(Load) || next == DispHead
    case ExprHead => next == ExprWait || next == WantBelt(Logout)
    case ExprWait => next == ExprHead || next == WantDock(Batch) || next == WantBelt(Logout)
    case MonHead => next == MonHead || next == WantBelt(Logout)
    case _ => AtTerminal(pt) && (AtTerminal(next) || next == WantBelt(Logout))
  }

  /** A step stays at its place or goes to a successor. */
  predicate Flows(q: Proc, m: Move) {
    Place(m.q.pc) == Place(q.pc) || Successor(q.kind, Place(q.pc), Place(m.q.pc))
  }

  lemma SessionFlow(s: Memory, pid: int, q: Proc, op: BeltOp, v: Belt, m: Move)
    requires q.pc == DoBelt(op, v) && SessionBody(s, pid, q, op, v.users) == Some(m)
    ensures Flows(q, m)
  {
    hide LoginSlot;
    match op
    case Login =>
    case Logout =>
    case Spawn =>
    case Finish =>
    case _ =>
  }

  lemma FloorFlow(s: Memory, q: Proc, op: BeltOp, v: Belt, m: Move)
    requires q.pc == DoBelt(op, v) && FloorBody(s, q, op, v) == Some(m)
    ensures Flows(q, m) && m.q.slot == q.slot && !Logging(m.q.pc)
    ensures op.Pop? || m.q.pkg == q.pkg || m.q.pkg == []
  {
    match op
    case Register =>
    case Unregister =>
    case Push =>
    case Pop =>
    case _ =>
  }

  lemma DockFlow(s: Memory, pid: int, q: Proc, op: DockOp, d: Ledger.Dock, c: Choice, m: Move)
    requires q.pc == DoDock(op, d) && HoldStep(s, pid, q, c) == Some(m)
    ensures Flows(q, m)
  {
    hide Ledger.LoadPackage, Ledger.LoadBatch;
    match op
    case Claim =>
    case Shutdown =>
    case Depart =>
    case Cleanup =>
    case Load =>
    case Batch =>
  }

  lemma TokenFlow(s: Memory, q: Proc, pt: Point, c: Choice, m: Move)
    requires q.pc == At(pt) && TokenStep(s, q, pt, c) == Some(m)
    ensures Flows(q, m)
  {
    match pt
    case WaitEmpty =>
    case WaitFull =>
    case PutFull =>
    case PutBackEmpty =>
    case FreeEmpty =>
    case GiveBackFull =>
    case _ =>
  }

  lemma LocalFlow(s: Memory, pid: int, q: Proc, pt: Point, c: Choice, m: Move)
    requires q.pc == At(pt) && LocalStep(s, pid, q, pt, c) == Some(m)
    ensures Flows(q, m)
  {
    match pt
    case WorkHead =>
    case Make =>
    case LoadTest =>
    case LoadDivide =>
    case TruckHead =>
    case TruckWait =>
    case TruckGot(_) =>
    case DispHead =>
    case DispRetry =>
    case ExprHead =>
    case ExprWait =>
    case MonHead =>
    case _ =>
  }

  lemma LoginFlow(s: Memory, pid: int, q: Proc, m: Move)
    requires LoginStage(s, pid, q) == Some(m)
    ensures Flows(q, m)
  {
    match q.pc
    case LoginMark(_) =>
    case LoginName(_) =>
    case LoginPid(_) =>
    case _ =>
  }

  lemma ProcFlow(s: Memory, pid: int, q: Proc, c: Choice, m: Move)
    requires ProcOk(q) && ProcStep(s, pid, q, c) == Some(m)
    ensures Flows(q, m)
  {
    hide SessionBody, FloorBody, LoaderBody, TruckBody, LoginStage, RelayStep, ProcOk, Guarded, OffFloor,
      TerminalStep, EnterStep, TokenStep, LocalStep;
    if q.pc.At? {
      var pt := q.pc.point;
      if AtTerminal(pt) {
        TerminalShape(s, pid, q, pt, c, m);
      } else if pt.WantBelt? || pt.WantDock? {
        EnterShape(s, q, pt, m);
      } else if AtToken(pt) {
        TokenFlow(s, q, pt, c, m);
      } else {
        LocalFlow(s, pid, q, pt, c, m);
      }
    } else if q.pc.DoBelt? {
      var op, v := q.pc.bop, q.pc.seenBelt;
      if SessionOp(op) {
        SessionFlow(s, pid, q, op, v, m);
      } else {
        FloorFlow(s, q, op, v, m);
      }
    } else if q.pc.DoDock? {
      DockFlow(s, pid, q, q.pc.dop, q.pc.seenDock, c, m);
    } else if Logging(q.pc) {
      LoginFlow(s, pid, q, m);
    } else {
      RelayShape(s, q, m);
    }
  }
}
