/** The dock over all interleavings of trucks, loaders and messages: exclusive ownership, and a
    truck that has been told to leave always has its message. */
module Yard {
  import opened Shared
  import opened Docking
  import Ledger
  import opened Protocol
  import opened Structure
  import opened Exclusion
  import opened ControlFlow
  import opened Mail

  /** A truck between docking and leaving. */
  predicate Docks(q: Proc) {
    var pt := Place(q.pc);
    pt.TruckWait? || pt.TruckGot? || pt == WantDock(Shutdown) || pt == WantDock(Depart)
  }

  /** The dock record is in use exactly while one truck is between docking and leaving, and it
      carries that truck's pid. */
  ghost predicate OwnerOk(s: State) {
    var t := s.sh.dock.truck;
    && (forall p :: p in s.procs && Docks(s.procs[p]) ==> t.isPresent && t.id == p)
    && (t.isPresent ==> t.id in s.procs && Docks(s.procs[t.id]))
  }

  /** The truck `t` has a message queued or has received one, or its message is being sent. */
  ghost predicate Summoned(s: State, t: int) {
    && t in s.procs
    && (|| !Place(s.procs[t].pc).TruckWait?
        || Queued(s.sh.queue, t) != []
        || exists p :: Sends(s.procs, p, t))
  }

  ghost predicate Sends(procs: map<int, Proc>, p: int, t: int) {
    p in procs && procs[p].pc.SendDock? && procs[p].pc.to == t
  }

  ghost predicate PendingOk(s: State) {
    var d := s.sh.dock; d.truck.isPresent && d.called ==> Summoned(s, d.truck.id)
  }

  /** How a step can change the record: not at all as far as occupancy goes, by docking, or by
      leaving. */
  predicate Occupancy(s: Memory, pid: int, q: Proc, m: Move) {
    var t, t' := s.dock.truck, m.sh.dock.truck;
    || (t'.isPresent == t.isPresent && t'.id == t.id && Docks(m.q) == Docks(q))
    || (!t.isPresent && t'.isPresent && t'.id == pid && !Docks(q) && Docks(m.q))
    || (t.isPresent && t.id == pid && !t'.isPresent && Docks(q) && !Docks(m.q))
  }

  /** A loader that decides that the truck must leave goes on to send the message. */
  predicate Calls(s: Memory, m: Move) {
    m.sh.dock.truck.isPresent && m.sh.dock.called ==>
      || (s.dock.truck.isPresent && s.dock.called && s.dock.truck.id == m.sh.dock.truck.id)
      || (m.q.pc.SendDock? && m.q.pc.to == m.sh.dock.truck.id)
  }

  lemma OwnerJoin(s: State, pid: int, m: Move)
    requires OwnerOk(s) && pid in s.procs && Occupancy(s.sh, pid, s.procs[pid], m)
    ensures OwnerOk(State(m.sh, s.procs[pid := m.q]))
  {
    hide Docks;
  }

  /** The identity check of a leaving truck never fails and the clean-up after its loop finds
      nothing to do (include/Truck.h:166-176, 186-190). */
  lemma TruckOccupancy(s: State, pid: int, op: DockOp, c: Choice, m: Move)
    requires OwnerOk(s) && pid in s.procs && s.procs[pid].pc == DoDock(op, s.sh.dock)
    requires TruckBody(s.sh, pid, s.procs[pid], op, s.sh.dock, c) == Some(m)
    ensures Occupancy(s.sh, pid, s.procs[pid], m)
    ensures op.Shutdown? || op.Depart? ==> s.sh.dock.truck.isPresent && s.sh.dock.truck.id == pid
    ensures op.Cleanup? ==> m.sh.dock == s.sh.dock
    ensures Calls(s.sh, m)
  {
    match op
    case Claim =>
    case Shutdown => assert Docks(s.procs[pid]);
    case Depart => assert Docks(s.procs[pid]);
    case Cleanup => assert !Docks(s.procs[pid]);
    case _ =>
  }

  lemma TruckDockOk(s: State, pid: int, op: DockOp, c: Choice, m: Move)
    requires OwnerOk(s) && Ledger.DockOk(s.sh.dock) && pid in s.procs && pid > 0
    requires s.procs[pid].pc == DoDock(op, s.sh.dock)
    requires TruckBody(s.sh, pid, s.procs[pid], op, s.sh.dock, c) == Some(m)
    ensures Ledger.DockOk(m.sh.dock)
  {
    TruckOccupancy(s, pid, op, c, m);
    hide Ledger.DockOk, Ledger.Shutdown, Ledger.Depart, Ledger.Claim, Ledger.Cleanup, OwnerOk, Occupancy;
    match op
    case Claim =>
      if !s.sh.dock.truck.isPresent {
        Ledger.ClaimKeeps(s.sh.dock, pid, c.maxWeight, c.maxVolume);
      }
    case Shutdown => Ledger.ShutdownKeeps(s.sh.dock, pid);
    case Depart => Ledger.DepartKeeps(s.sh.dock, pid);
    case Cleanup =>
    case _ =>
  }

  lemma LoaderOccupancy(s: Memory, pid: int, q: Proc, op: DockOp, c: Choice, m: Move)
    requires q.pc == DoDock(op, s.dock) && LoaderBody(s, q, op, s.dock, c) == Some(m)
    ensures Occupancy(s, pid, q, m) && !Docks(q)
    ensures Calls(s, m)
  {
    match op
    case Load =>
    case Batch =>
      if s.dock.truck.isPresent {
        Ledger.AddItemsKeeps(s.dock.truck, c.items[..BatchTaken(s.dock.truck, c.items)]);
      }
    case _ =>
  }

  lemma LoaderDockOk(s: Memory, q: Proc, op: DockOp, c: Choice, m: Move)
    requires Ledger.DockOk(s.dock) && q.pc == DoDock(op, s.dock) && LoaderBody(s, q, op, s.dock, c) == Some(m)
    requires op.Load? ==> forall x :: x in q.pkg ==> BeltItem(ItemOf(x))
    ensures Ledger.DockOk(m.sh.dock)
  {
    hide Ledger.DockOk, Ledger.LoadBatch, BeltItem, ItemOf;
    match op
    case Load => Ledger.LoadKeeps(s.dock, q.pkg[0]);
    case Batch =>
      if s.dock.truck.isPresent {
        Ledger.BatchKeeps(s.dock, c.items);
      }
    case _ =>
  }

  lemma QuietOccupancy(s: Memory, pid: int, q: Proc, m: Move)
    requires m.sh.dock == s.dock && Flows(q, m)
    requires Place(m.q.pc) == Place(q.pc) || !Place(q.pc).WantDock?
    ensures Occupancy(s, pid, q, m) && Calls(s, m)
  {
  }

  ghost predicate YardKept(s: State, pid: int, m: Move)
    requires pid in s.procs
  {
    Occupancy(s.sh, pid, s.procs[pid], m) && Calls(s.sh, m) && Ledger.DockOk(m.sh.dock)
  }

  lemma HoldYard(s: State, pid: int, c: Choice, m: Move)
    requires BaseOk(s) && OwnerOk(s) && Ledger.DockOk(s.sh.dock) && pid in s.procs && !s.procs[pid].pc.At?
    requires HoldStep(s.sh, pid, s.procs[pid], c) == Some(m) && Flows(s.procs[pid], m)
    requires Place(s.procs[pid].pc) == WantDock(Load) ==> forall x :: x in s.procs[pid].pkg ==> BeltItem(ItemOf(x))
    ensures YardKept(s, pid, m)
  {
    hide SessionBody, FloorBody, LoaderBody, TruckBody, LoginStage, RelayStep, ProcOk, OwnerOk, Flows, OffFloor,
      Ledger.DockOk, Occupancy, Calls, BeltItem, ItemOf;
    var q := s.procs[pid];
    if q.pc.DoBelt? {
      var op, v := q.pc.bop, q.pc.seenBelt;
      if SessionOp(op) {
        SessionShape(s.sh, pid, q, op, v, m);
      } else {
        FloorShape(s.sh, q, op, v, m);
      }
      QuietOccupancy(s.sh, pid, q, m);
    } else if q.pc.DoDock? {
      var op := q.pc.dop;
      if op.Load? || op.Batch? {
        LoaderOccupancy(s.sh, pid, q, op, c, m);
        LoaderDockOk(s.sh, q, op, c, m);
      } else {
        TruckOccupancy(s, pid, op, c, m);
        TruckDockOk(s, pid, op, c, m);
      }
    } else if Logging(q.pc) {
      LoginShape(s.sh, pid, q, m);
      QuietOccupancy(s.sh, pid, q, m);
    } else {
      RelayShape(s.sh, q, m);
      QuietOccupancy(s.sh, pid, q, m);
    }
  }

  lemma PointYard(s: State, pid: int, c: Choice, m: Move)
    requires BaseOk(s) && Ledger.DockOk(s.sh.dock) && pid in s.procs && s.procs[pid].pc.At?
    requires PointStep(s.sh, pid, s.procs[pid], s.procs[pid].pc.point, c) == Some(m) && Flows(s.procs[pid], m)
    ensures YardKept(s, pid, m)
  {
    hide TerminalStep, EnterStep, TokenStep, LocalStep, ProcOk, Flows, Ledger.DockOk, Occupancy, Calls;
    var q, pt := s.procs[pid], s.procs[pid].pc.point;
    if AtTerminal(pt) {
      TerminalShape(s.sh, pid, q, pt, c, m);
    } else if pt.WantBelt? || pt.WantDock? {
      EnterShape(s.sh, q, pt, m);
    } else if AtToken(pt) {
      TokenShape(s.sh, q, pt, c, m);
    } else {
      LocalShape(s.sh, pid, q, pt, c, m);
    }
    QuietOccupancy(s.sh, pid, q, m);
  }

  lemma PendingJoin(s: State, pid: int, m: Move)
    requires BaseOk(s) && OwnerOk(s) && PendingOk(s) && pid in s.procs
    requires YardKept(s, pid, m) && MailLaw(s.sh, pid, s.procs[pid], m) && Flows(s.procs[pid], m)
    ensures PendingOk(State(m.sh, s.procs[pid := m.q]))
  {
    hide ProcOk, Fresh, Ledger.DockOk;
    var s' := State(m.sh, s.procs[pid := m.q]);
    var t := m.sh.dock.truck.id;
    OwnerJoin(s, pid, m);
    if m.sh.dock.truck.isPresent && m.sh.dock.called {
      if m.q.pc.SendDock? && m.q.pc.to == t {
        assert Sends(s'.procs, pid, t);
      } else {
        assert Summoned(s, t);
        SummonedStays(s, pid, m, t);
      }
    }
  }

  lemma SummonedStays(s: State, pid: int, m: Move, t: int)
    requires pid in s.procs && Summoned(s, t) && t > 0 && Docks(s.procs[t])
    requires t == pid ==> Docks(m.q)
    requires MailLaw(s.sh, pid, s.procs[pid], m) && Flows(s.procs[pid], m)
    ensures Summoned(State(m.sh, s.procs[pid := m.q]), t)
  {
    var s' := State(m.sh, s.procs[pid := m.q]);
    if Queued(s.sh.queue, t) != [] {
    } else if Place(s.procs[t].pc).TruckWait? {
      var p :| Sends(s.procs, p, t);
      if p != pid {
        assert Sends(s'.procs, p, t);
      }
    }
  }

  ghost predicate YardOk(s: State) {
    Ledger.DockOk(s.sh.dock) && OwnerOk(s) && PendingOk(s)
  }

  lemma YardAct(s: State, pid: int, c: Choice, m: Move)
    requires BaseOk(s) && YardOk(s) && pid in s.procs && ProcStep(s.sh, pid, s.procs[pid], c) == Some(m)
    requires Place(s.procs[pid].pc) == WantDock(Load) ==> forall x :: x in s.procs[pid].pkg ==> BeltItem(ItemOf(x))
    ensures YardOk(State(m.sh, s.procs[pid := m.q])) && YardKept(s, pid, m)
  {
    assert ProcOk(s.procs[pid]);
    hide HoldStep, PointStep, OwnerOk, PendingOk, BaseOk, ProcOk, Flows, Ledger.DockOk, Occupancy, Calls, MailLaw, BeltItem, ItemOf;
    ProcFlow(s.sh, pid, s.procs[pid], c, m);
    ProcMail(s.sh, pid, s.procs[pid], c, m);
    if s.procs[pid].pc.At? {
      PointYard(s, pid, c, m);
    } else {
      HoldYard(s, pid, c, m);
    }
    OwnerJoin(s, pid, m);
    PendingJoin(s, pid, m);
  }
}
