/** How often a package can be turned away: with at most one express batch per docking, by at
    most one truck. */
module Rejection {
  import opened Shared
  import opened SessionTable
  import opened Docking
  import Ledger
  import opened Protocol
  import opened Structure
  import opened Exclusion
  import opened ControlFlow
  import opened Registry
  import opened Accounts

  /** The package in hand was rejected by past dockings and possibly by the present one. A truck
      that docked after a rejection has nothing from the belt yet. */
  ghost predicate RejectLaw(d: Ledger.Dock, rejects: set<nat>) {
    && (forall k :: k in rejects ==> k <= d.dockings)
    && (rejects != {} && d.dockings !in rejects && d.truck.isPresent ==> d.truck.currentLoad == 0)
    && (d.dockings in rejects && d.truck.isPresent ==> d.called)
    && (!d.crowded ==> |rejects| <= 1)
  }

  ghost predicate RejectOk(s: State) {
    forall p :: p in s.procs && Holding(s.procs[p]) ==> RejectLaw(s.sh.dock, s.procs[p].rejects)
  }

  /** What others than the dispatcher do to the dock. */
  predicate Passing(d: Ledger.Dock, d': Ledger.Dock) {
    && d'.dockings >= d.dockings && (d.crowded ==> d'.crowded)
    && (d'.dockings == d.dockings && d'.truck.isPresent ==>
          d.truck.isPresent && d'.truck.currentLoad == d.truck.currentLoad && (d.called ==> d'.called))
    && (d'.dockings > d.dockings ==> d'.truck.currentLoad == 0)
  }

  lemma PassingKeeps(d: Ledger.Dock, d': Ledger.Dock, rejects: set<nat>)
    requires RejectLaw(d, rejects) && Passing(d, d')
    ensures RejectLaw(d', rejects)
  {
  }

  lemma RejectJoin(s: State, pid: int, m: Move)
    requires RejectOk(s) && pid in s.procs && Passing(s.sh.dock, m.sh.dock)
    requires Holding(m.q) ==> RejectLaw(m.sh.dock, m.q.rejects)
    ensures RejectOk(State(m.sh, s.procs[pid := m.q]))
  {
    hide RejectLaw, Passing, Holding;
    forall p | p in s.procs && p != pid && Holding(s.procs[p])
      ensures RejectLaw(m.sh.dock, s.procs[p].rejects)
    {
      PassingKeeps(s.sh.dock, m.sh.dock, s.procs[p].rejects);
    }
  }

  lemma TruckPassing(s: Memory, pid: int, q: Proc, op: DockOp, c: Choice, m: Move)
    requires q.pc == DoDock(op, s.dock) && TruckBody(s, pid, q, op, s.dock, c) == Some(m)
    ensures Passing(s.dock, m.sh.dock) && !Holding(m.q)
  {
    match op
    case Claim =>
    case Shutdown =>
    case Depart =>
    case Cleanup =>
    case _ =>
  }

  lemma BatchPassing(s: Memory, q: Proc, c: Choice, m: Move)
    requires q.pc == DoDock(Batch, s.dock) && LoaderBody(s, q, Batch, s.dock, c) == Some(m)
    ensures Passing(s.dock, m.sh.dock) && !Holding(m.q)
  {
    if s.dock.truck.isPresent {
      Ledger.AddItemsKeeps(s.dock.truck, c.items[..BatchTaken(s.dock.truck, c.items)]);
    }
  }

  /** A second rejection can only come from the same docking. */
  lemma LoadReject(s: State, pid: int, c: Choice, m: Move)
    requires BaseOk(s) && RegistryOk(s) && RejectOk(s) && Ledger.DockOk(s.sh.dock) && pid in s.procs
    requires forall x :: x in s.procs[pid].pkg ==> BeltItem(ItemOf(x))
    requires s.procs[pid].pc == DoDock(Load, s.sh.dock)
    requires LoaderBody(s.sh, s.procs[pid], Load, s.sh.dock, c) == Some(m)
    ensures RejectOk(State(m.sh, s.procs[pid := m.q]))
  {
    Alone(s, pid);
    assert Holding(s.procs[pid]);
    hide BaseOk, RegistryOk, Ledger.DockOk, BeltItem, ItemOf, RejectLaw, AtDispatcher, LoaderBody, Holding;
    LoadLaw(s.sh, s.procs[pid], c, m);
  }

  lemma LoadLaw(s: Memory, q: Proc, c: Choice, m: Move)
    requires q.pc == DoDock(Load, s.dock) && LoaderBody(s, q, Load, s.dock, c) == Some(m)
    requires Ledger.DockOk(s.dock) && RejectLaw(s.dock, q.rejects) && forall x :: x in q.pkg ==> BeltItem(ItemOf(x))
    ensures Holding(m.q) ==> RejectLaw(m.sh.dock, m.q.rejects)
  {
    hide Ledger.DockOk, BeltItem, ItemOf, TryLoad, RejectLaw;
    if Ledger.LoadPackage(s.dock, q.pkg[0]).1.Rejected? {
      RejectedAgain(s.dock, q.pkg[0], q.rejects);
    }
  }

  lemma RejectedAgain(d: Ledger.Dock, p: Package, rejects: set<nat>)
    requires Ledger.DockOk(d) && RejectLaw(d, rejects) && BeltItem(ItemOf(p)) && Ledger.LoadPackage(d, p).1.Rejected?
    ensures RejectLaw(Ledger.LoadPackage(d, p).0, rejects + {d.dockings})
  {
    hide Ledger.DockOk, BeltItem, ItemOf, Fits;
    if !d.crowded && rejects != {} {
      if d.dockings !in rejects {
        RoomLeft(d, p);
      } else {
        SameDocking(rejects, d.dockings);
      }
    }
  }

  lemma SameDocking(rejects: set<nat>, k: nat)
    requires |rejects| <= 1 && k in rejects
    ensures rejects + {k} == rejects
  {
  }

  lemma RoomLeft(d: Ledger.Dock, p: Package)
    requires Ledger.DockOk(d) && !d.crowded && BeltItem(ItemOf(p))
    requires d.truck.isPresent ==> d.truck.currentLoad == 0
    ensures !Ledger.LoadPackage(d, p).1.Rejected?
  {
    if d.truck.isPresent {
      Ledger.RoomAfterOneBatch(d, p);
    }
  }

  lemma HoldReject(s: State, pid: int, c: Choice, m: Move)
    requires BaseOk(s) && RegistryOk(s) && RejectOk(s) && Ledger.DockOk(s.sh.dock) && pid in s.procs && !s.procs[pid].pc.At?
    requires HoldStep(s.sh, pid, s.procs[pid], c) == Some(m) && Flows(s.procs[pid], m)
    requires Place(s.procs[pid].pc) == WantDock(Load) ==> forall x :: x in s.procs[pid].pkg ==> BeltItem(ItemOf(x))
    ensures RejectOk(State(m.sh, s.procs[pid := m.q]))
  {
    var q := s.procs[pid];
    assert ProcOk(q) && Fresh(s.sh, q);
    hide SessionBody, FloorBody, LoaderBody, TruckBody, LoginStage, RelayStep, ProcOk, RegistryOk, BaseOk, RejectLaw,
      OffFloor, Ledger.DockOk, Guarded, BeltItem, ItemOf, Successor;
    if q.pc.DoBelt? {
      var op, v := q.pc.bop, q.pc.seenBelt;
      if SessionOp(op) {
        SessionShape(s.sh, pid, q, op, v, m);
        SessionNotHeld(s.sh, pid, q, op, v, m);
      } else if op.Pop? {
        PopReject(s.sh, q, v, m);
      } else {
        FloorQuiet(s.sh, q, op, v, m);
      }
      RejectJoin(s, pid, m);
    } else if q.pc.DoDock? {
      var op := q.pc.dop;
      if op.Load? {
        LoadReject(s, pid, c, m);
      } else {
        if op.Batch? {
          BatchPassing(s.sh, q, c, m);
        } else {
          TruckPassing(s.sh, pid, q, op, c, m);
        }
        RejectJoin(s, pid, m);
      }
    } else if Logging(q.pc) {
      LoginShape(s.sh, pid, q, m);
      LoginNotHeld(s.sh, pid, q, m);
      RejectJoin(s, pid, m);
    } else {
      RelayShape(s.sh, q, m);
      RejectJoin(s, pid, m);
    }
  }

  lemma SessionNotHeld(s: Memory, pid: int, q: Proc, op: BeltOp, v: Belt, m: Move)
    requires q.pc == DoBelt(op, v) && SessionBody(s, pid, q, op, v.users) == Some(m)
    ensures !Holding(m.q)
  {
    hide LoginSlot;
  }

  lemma LoginNotHeld(s: Memory, pid: int, q: Proc, m: Move)
    requires LoginStage(s, pid, q) == Some(m)
    ensures !Holding(m.q)
  {
  }

  lemma PopReject(s: Memory, q: Proc, v: Belt, m: Move)
    requires q.pc == DoBelt(Pop, v) && FloorBody(s, q, Pop, v) == Some(m)
    ensures m.sh.dock == s.dock && (Holding(m.q) ==> RejectLaw(m.sh.dock, m.q.rejects))
  {
  }

  lemma PointReject(s: State, pid: int, c: Choice, m: Move)
    requires BaseOk(s) && RejectOk(s) && pid in s.procs && s.procs[pid].pc.At?
    requires PointStep(s.sh, pid, s.procs[pid], s.procs[pid].pc.point, c) == Some(m) && Flows(s.procs[pid], m)
    ensures RejectOk(State(m.sh, s.procs[pid := m.q]))
  {
    var q, pt := s.procs[pid], s.procs[pid].pc.point;
    assert ProcOk(q);
    hide TerminalStep, EnterStep, TokenStep, LocalStep, ProcOk, RejectLaw, Guarded;
    if AtTerminal(pt) {
      TerminalShape(s.sh, pid, q, pt, c, m);
    } else if pt.WantBelt? || pt.WantDock? {
      EnterShape(s.sh, q, pt, m);
    } else if AtToken(pt) {
      TokenShape(s.sh, q, pt, c, m);
    } else {
      LocalShape(s.sh, pid, q, pt, c, m);
    }
    if Holding(m.q) && Place(m.q.pc) != Place(q.pc) {
      HeldBefore(q.kind, pt, Place(m.q.pc));
    }
    RejectJoin(s, pid, m);
  }

  lemma HeldBefore(kind: Kind, pt: Point, pt': Point)
    requires Successor(kind, pt, pt') && Holds(pt') && pt != WantBelt(Pop)
    ensures Holds(pt)
  {
  }

  lemma RejectAct(s: State, pid: int, c: Choice, m: Move)
    requires BaseOk(s) && RegistryOk(s) && RejectOk(s) && Ledger.DockOk(s.sh.dock) && pid in s.procs
    requires ProcStep(s.sh, pid, s.procs[pid], c) == Some(m)
    requires Place(s.procs[pid].pc) == WantDock(Load) ==> forall x :: x in s.procs[pid].pkg ==> BeltItem(ItemOf(x))
    ensures RejectOk(State(m.sh, s.procs[pid := m.q]))
  {
    assert ProcOk(s.procs[pid]);
    hide HoldStep, PointStep, BaseOk, RegistryOk, RejectOk, ProcOk, Flows, Ledger.DockOk, BeltItem, ItemOf;
    ProcFlow(s.sh, pid, s.procs[pid], c, m);
    if s.procs[pid].pc.At? {
      PointReject(s, pid, c, m);
    } else {
      HoldReject(s, pid, c, m);
    }
  }
}
