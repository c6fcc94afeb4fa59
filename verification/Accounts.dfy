/** Where every package is: on the belt, in the dispatcher's hand, on a truck, or dropped at
    shutdown. Rests on there being one dispatcher at work, which the session names enforce. */
module Accounts {
  import opened Shared
  import opened Docking
  import BeltRing
  import Ledger
  import opened Protocol
  import opened Structure
  import opened Exclusion
  import opened ControlFlow
  import opened Registry
  import opened Floor

  /** The dispatcher holds a package between `pop` and loading it. */
  predicate Holds(pt: Point) {
    pt.FreeEmpty? || pt.DispRetry? || pt == WantDock(Load)
  }

  predicate Holding(q: Proc) { Holds(Place(q.pc)) }

  ghost predicate HeldSomewhere(procs: map<int, Proc>, p: int) {
    p in procs && Holding(procs[p])
  }

  /** The package in hand is the one popped last, and the dispatcher's local variable has it. */
  ghost predicate HandOk(s: State) {
    var log := s.sh.log;
    && |log.hand| <= 1
    && (forall p :: p in s.procs && Holding(s.procs[p]) ==> s.procs[p].pkg == log.hand)
    && (log.hand != [] ==> exists p :: HeldSomewhere(s.procs, p))
    && (log.hand != [] ==> log.popped != [] && log.hand[0] == log.popped[|log.popped| - 1])
  }

  /** The popped packages are, in order, those loaded on trucks, the dropped one, and the one in
      hand. A package is dropped only after the stop, and then nothing is popped any more. */
  ghost predicate BooksBalance(s: State) {
    var log := s.sh.log;
    && Ids(log.popped) == Ledger.BeltIds(s.sh.dock.accepted) + Ids(log.dropped) + Ids(log.hand)
    && (log.dropped != [] ==>
          && !s.sh.running && |log.dropped| == 1
          && forall p :: p in s.procs && AtDispatcher(Place(s.procs[p].pc)) ==> Place(s.procs[p].pc).DispHead?)
  }

  ghost predicate AccountsOk(s: State) { HandOk(s) && BooksBalance(s) }

  lemma QuietAccounts(s: State, pid: int, m: Move)
    requires AccountsOk(s) && pid in s.procs
    requires m.sh.log.popped == s.sh.log.popped && m.sh.log.dropped == s.sh.log.dropped && m.sh.log.hand == s.sh.log.hand
    requires Ledger.BeltIds(m.sh.dock.accepted) == Ledger.BeltIds(s.sh.dock.accepted)
    requires m.sh.running ==> s.sh.running
    requires Holding(m.q) == Holding(s.procs[pid]) && (Holding(m.q) ==> m.q.pkg == s.procs[pid].pkg)
    requires s.sh.log.dropped != [] && AtDispatcher(Place(m.q.pc)) ==> Place(m.q.pc).DispHead?
    ensures AccountsOk(State(m.sh, s.procs[pid := m.q]))
  {
    hide Holding, AtDispatcher, Ids, Ledger.BeltIds;
    var s' := State(m.sh, s.procs[pid := m.q]);
    if s.sh.log.hand != [] {
      var p :| HeldSomewhere(s.procs, p);
      assert HeldSomewhere(s'.procs, p);
    }
  }

  /** A dispatcher about to take a package, load it or drop it is alone. */
  lemma Alone(s: State, pid: int)
    requires BaseOk(s) && RegistryOk(s) && pid in s.procs && AtDispatcher(Place(s.procs[pid].pc))
    ensures forall r :: r in s.procs && r != pid ==> !AtDispatcher(Place(s.procs[r].pc)) && !Holding(s.procs[r])
  {
    hide RegistryOk, BaseOk, Place;
    forall r | r in s.procs && r != pid
      ensures !AtDispatcher(Place(s.procs[r].pc)) && !Holding(s.procs[r])
    {
      if AtDispatcher(Place(s.procs[r].pc)) {
        OneDispatcher(s, pid, r);
      }
    }
  }

  lemma PopAccounts(s: State, pid: int, m: Move, x: Package)
    requires AccountsOk(s) && pid in s.procs
    requires forall r :: r in s.procs && r != pid ==> !AtDispatcher(Place(s.procs[r].pc)) && !Holding(s.procs[r])
    requires var q := s.procs[pid]; Place(q.pc) == WantBelt(Pop) && Holding(m.q) && m.q.pkg == [x]
    requires m.sh.log == s.sh.log.(popped := s.sh.log.popped + [x], hand := s.sh.log.hand + [x])
    requires m.sh.dock == s.sh.dock && m.sh.running == s.sh.running
    ensures AccountsOk(State(m.sh, s.procs[pid := m.q]))
  {
    hide Ledger.BeltIds;
    var s' := State(m.sh, s.procs[pid := m.q]);
    assert !Holding(s.procs[pid]);
    assert s.sh.log.hand == [] && s.sh.log.dropped == [];
    assert HeldSomewhere(s'.procs, pid);
    assert Ids(m.sh.log.popped) == Ids(s.sh.log.popped) + [x.id];
    assert Ids(m.sh.log.hand) == [x.id];
  }

  lemma LoadAccounts(s: State, pid: int, m: Move, x: Package)
    requires AccountsOk(s) && pid in s.procs && x.id > 0
    requires forall r :: r in s.procs && r != pid ==> !AtDispatcher(Place(s.procs[r].pc)) && !Holding(s.procs[r])
    requires var q := s.procs[pid]; Place(q.pc) == WantDock(Load) && q.pkg == [x] && !Holding(m.q)
    requires m.sh.log == s.sh.log.(hand := []) && m.sh.running == s.sh.running
    requires m.sh.dock.accepted == s.sh.dock.accepted + [ItemOf(x)]
    ensures AccountsOk(State(m.sh, s.procs[pid := m.q]))
  {
    assert Holding(s.procs[pid]);
    assert s.sh.log.hand == [x] && s.sh.log.dropped == [];
    assert Ids([x]) == [x.id];
    Ledger.IdsOfConcat(s.sh.dock.accepted, [ItemOf(x)]);
    assert Ledger.BeltIds([ItemOf(x)]) == [x.id];
    assert forall r :: r in s.procs && r != pid ==> !Holding(s.procs[r]);
  }

  lemma DropAccounts(s: State, pid: int, m: Move)
    requires AccountsOk(s) && pid in s.procs && !s.sh.running
    requires forall r :: r in s.procs && r != pid ==> !AtDispatcher(Place(s.procs[r].pc)) && !Holding(s.procs[r])
    requires var q := s.procs[pid]; Place(q.pc).DispRetry? && |q.pkg| == 1 && Place(m.q.pc).DispHead?
    requires m.sh.log == s.sh.log.(dropped := s.sh.log.dropped + s.procs[pid].pkg, hand := [])
    requires m.sh.running == s.sh.running && m.sh.dock == s.sh.dock
    ensures AccountsOk(State(m.sh, s.procs[pid := m.q]))
  {
    assert Holding(s.procs[pid]) && AtDispatcher(Place(s.procs[pid].pc)) && !Holding(m.q);
    hide Ledger.BeltIds, Ids, AtDispatcher, Holding;
    var x := s.sh.log.hand[0];
    assert s.sh.log.dropped == [] && s.procs[pid].pkg == s.sh.log.hand == [x];
    assert m.sh.log == s.sh.log.(dropped := [x], hand := []);
    assert Ids(s.sh.log.popped) == Ledger.BeltIds(s.sh.dock.accepted) + Ids([]) + Ids([x]);
    DropBooks(s, pid, m, x);
  }

  lemma DropBooks(s: State, pid: int, m: Move, x: Package)
    requires pid in s.procs && !m.sh.running && m.sh.dock == s.sh.dock && Place(m.q.pc).DispHead? && !Holding(m.q)
    requires forall r :: r in s.procs && r != pid ==> !AtDispatcher(Place(s.procs[r].pc)) && !Holding(s.procs[r])
    requires m.sh.log == s.sh.log.(dropped := [x], hand := [])
    requires Ids(s.sh.log.popped) == Ledger.BeltIds(s.sh.dock.accepted) + Ids([]) + Ids([x])
    ensures AccountsOk(State(m.sh, s.procs[pid := m.q]))
  {
    NothingHeld(Ledger.BeltIds(s.sh.dock.accepted), x);
    hide Ledger.BeltIds, Ids, AtDispatcher, Holding;
  }

  lemma NothingHeld(loaded: seq<int>, x: Package)
    ensures loaded + Ids([]) + Ids([x]) == loaded + Ids([x]) + Ids([])
  {
  }

  /** Steps other than taking, loading and dropping a package leave the accounts as they are. */
  lemma FlowAccounts(s: State, pid: int, m: Move)
    requires AccountsOk(s) && pid in s.procs && Flows(s.procs[pid], m)
    requires m.sh.log.popped == s.sh.log.popped && m.sh.log.dropped == s.sh.log.dropped && m.sh.log.hand == s.sh.log.hand
    requires Ledger.BeltIds(m.sh.dock.accepted) == Ledger.BeltIds(s.sh.dock.accepted)
    requires m.sh.running ==> s.sh.running
    requires var q := s.procs[pid];
      var pt, pt' := Place(q.pc), Place(m.q.pc);
      && (pt' == pt || pt' == DispRetry || pt' == GiveBackFull || pt' == WantDock(Load) ||
          !(pt == WantBelt(Pop) || pt == WantDock(Load) || pt.DispRetry?))
      && (pt.DispHead? && pt'.WaitFull? ==> s.sh.running)
      && (Holds(pt') ==> m.q.pkg == q.pkg)
    ensures AccountsOk(State(m.sh, s.procs[pid := m.q]))
  {
    var q := s.procs[pid];
    if Place(m.q.pc) != Place(q.pc) {
      FlowHolds(q.kind, Place(q.pc), Place(m.q.pc));
      FlowDispatcher(q.kind, Place(q.pc), Place(m.q.pc));
      HeadSuccessor(q.kind, Place(q.pc), Place(m.q.pc));
    }
    hide Flows, Holds, AtDispatcher, Ids, Ledger.BeltIds, Place, HandOk;
    assert s.sh.log.dropped != [] && AtDispatcher(Place(q.pc)) ==> Place(q.pc).DispHead?;
    QuietAccounts(s, pid, m);
  }

  lemma FlowHolds(kind: Kind, pt: Point, pt': Point)
    requires Successor(kind, pt, pt')
    requires pt' == DispRetry || pt' == GiveBackFull || pt' == WantDock(Load) ||
             !(pt == WantBelt(Pop) || pt == WantDock(Load) || pt.DispRetry?)
    ensures Holds(pt') == Holds(pt)
  {
  }

  lemma HeadSuccessor(kind: Kind, pt: Point, pt': Point)
    requires Successor(kind, pt, pt')
    ensures pt.DispHead? && AtDispatcher(pt') ==> pt'.WaitFull?
  {
  }

  /** The dispatcher's loop is entered at its head. */
  lemma FlowDispatcher(kind: Kind, pt: Point, pt': Point)
    requires Successor(kind, pt, pt')
    ensures AtDispatcher(pt') ==> AtDispatcher(pt) || pt'.DispHead?
  {
    match pt'
    case WaitFull =>
    case WantBelt(_) =>
    case WantDock(_) =>
    case FreeEmpty =>
    case GiveBackFull =>
    case DispRetry =>
    case _ =>
  }

  lemma PopStep(s: State, pid: int, m: Move)
    requires BaseOk(s) && RegistryOk(s) && AccountsOk(s) && pid in s.procs
    requires s.procs[pid].pc == DoBelt(Pop, s.sh.belt) && FloorBody(s.sh, s.procs[pid], Pop, s.sh.belt) == Some(m)
    ensures AccountsOk(State(m.sh, s.procs[pid := m.q]))
  {
    hide RegistryOk, BaseOk, AccountsOk, BeltRing.Pop;
    var ring := s.sh.belt.ring;
    if ring.count > 0 {
      Alone(s, pid);
      PopAccounts(s, pid, m, BeltRing.Pop(ring).1);
    } else {
      FlowAccounts(s, pid, m);
    }
  }

  lemma LoadStep(s: State, pid: int, c: Choice, m: Move)
    requires BaseOk(s) && RegistryOk(s) && AccountsOk(s) && pid in s.procs
    requires forall x :: x in s.procs[pid].pkg ==> x.id > 0
    requires s.procs[pid].pc == DoDock(Load, s.sh.dock)
    requires LoaderBody(s.sh, s.procs[pid], Load, s.sh.dock, c) == Some(m)
    ensures AccountsOk(State(m.sh, s.procs[pid := m.q]))
  {
    hide RegistryOk, BaseOk, AccountsOk, TryLoad, Ledger.BeltIds, ItemOf;
    var q := s.procs[pid];
    if Ledger.LoadPackage(s.sh.dock, q.pkg[0]).1.Loaded? {
      Alone(s, pid);
      assert q.pkg == [q.pkg[0]];
      LoadAccounts(s, pid, m, q.pkg[0]);
    } else {
      FlowAccounts(s, pid, m);
    }
  }

  lemma {:induction false} ExpressIds(items: seq<Item>)
    requires forall i :: 0 <= i < |items| ==> items[i].id == 0
    ensures Ledger.BeltIds(items) == []
  {
    if items != [] {
      ExpressIds(items[1..]);
    }
  }

  lemma BatchStep(s: State, pid: int, c: Choice, m: Move)
    requires AccountsOk(s) && pid in s.procs && s.procs[pid].pc == DoDock(Batch, s.sh.dock)
    requires LoaderBody(s.sh, s.procs[pid], Batch, s.sh.dock, c) == Some(m)
    ensures AccountsOk(State(m.sh, s.procs[pid := m.q]))
  {
    hide AccountsOk, AddItems, BatchTaken;
    var d := s.sh.dock;
    if d.truck.isPresent {
      var taken := c.items[..BatchTaken(d.truck, c.items)];
      ExpressIds(taken);
      Ledger.IdsOfConcat(d.accepted, taken);
    }
    FlowAccounts(s, pid, m);
  }

  lemma TruckStep(s: State, pid: int, op: DockOp, c: Choice, m: Move)
    requires AccountsOk(s) && pid in s.procs && s.procs[pid].pc == DoDock(op, s.sh.dock)
    requires TruckBody(s.sh, pid, s.procs[pid], op, s.sh.dock, c) == Some(m) && Flows(s.procs[pid], m)
    ensures AccountsOk(State(m.sh, s.procs[pid := m.q]))
  {
    TruckQuiet(s.sh, pid, s.procs[pid], op, c, m);
    hide AccountsOk, TruckBody, Ledger.BeltIds, Flows;
    FlowAccounts(s, pid, m);
  }

  lemma TruckQuiet(s: Memory, pid: int, q: Proc, op: DockOp, c: Choice, m: Move)
    requires q.pc == DoDock(op, s.dock) && TruckBody(s, pid, q, op, s.dock, c) == Some(m)
    ensures m.sh == s.(dock := m.sh.dock) && m.sh.dock.accepted == s.dock.accepted
    ensures !Holds(Place(m.q.pc)) && op != Load && !Place(m.q.pc).WaitFull?
  {
    hide ShutdownLeave, DepartLeave, CleanupLeave, Docked;
    match op
    case Claim =>
    case Shutdown =>
    case Depart =>
    case Cleanup =>
    case _ =>
  }

  lemma LocalAccounts(s: State, pid: int, pt: Point, c: Choice, m: Move)
    requires BaseOk(s) && RegistryOk(s) && AccountsOk(s) && pid in s.procs && s.procs[pid].pc == At(pt)
    requires LocalStep(s.sh, pid, s.procs[pid], pt, c) == Some(m) && Flows(s.procs[pid], m)
    ensures AccountsOk(State(m.sh, s.procs[pid := m.q]))
  {
    assert ProcOk(s.procs[pid]);
    hide RegistryOk, BaseOk, AccountsOk, Ledger.BeltIds, Flows;
    if pt.DispRetry? || pt.DispHead? {
      LoopAccounts(s, pid, pt, c, m);
    } else {
      hide LocalStep;
      LocalQuiet(s.sh, pid, s.procs[pid], pt, c, m);
      FlowAccounts(s, pid, m);
    }
  }

  /** The dispatcher between packages, and giving one up. */
  lemma LoopAccounts(s: State, pid: int, pt: Point, c: Choice, m: Move)
    requires BaseOk(s) && RegistryOk(s) && AccountsOk(s) && pid in s.procs && s.procs[pid].pc == At(pt) && (pt.DispRetry? || pt.DispHead?)
    requires LocalStep(s.sh, pid, s.procs[pid], pt, c) == Some(m) && Flows(s.procs[pid], m)
    ensures AccountsOk(State(m.sh, s.procs[pid := m.q]))
  {
    assert ProcOk(s.procs[pid]);
    hide RegistryOk, BaseOk, AccountsOk, Ledger.BeltIds, Flows, LocalStep;
    LoopMove(s.sh, pid, s.procs[pid], pt, c, m);
    if pt.DispRetry? && !s.sh.running {
      Alone(s, pid);
      DropAccounts(s, pid, m);
    } else {
      FlowAccounts(s, pid, m);
    }
  }

  lemma LoopMove(s: Memory, pid: int, q: Proc, pt: Point, c: Choice, m: Move)
    requires q.pc == At(pt) && (pt.DispRetry? || pt.DispHead?) && LocalStep(s, pid, q, pt, c) == Some(m)
    ensures pt.DispRetry? && !s.running ==>
      m == Move(s.(log := s.log.(dropped := s.log.dropped + q.pkg, hand := [])), q.(pc := At(DispHead), pkg := []))
    ensures pt.DispRetry? && s.running ==> m == Move(s, q.(pc := At(WantDock(Load))))
    ensures pt.DispHead? ==> m.sh == s && m.q == q.(pc := At(if s.running then WaitFull else WantBelt(Logout)))
  {
  }

  lemma LocalQuiet(s: Memory, pid: int, q: Proc, pt: Point, c: Choice, m: Move)
    requires q.pc == At(pt) && !pt.DispRetry? && LocalStep(s, pid, q, pt, c) == Some(m)
    ensures m.sh.log == s.log && m.sh.dock == s.dock && m.sh.running == s.running && !Holds(Place(m.q.pc))
  {
    match pt
    case WorkHead =>
    case Make =>
    case LoadTest =>
    case LoadDivide =>
    case TruckHead =>
    case TruckWait =>
    case TruckGot(_) =>
    case DispHead =>
    case ExprHead =>
    case ExprWait =>
    case MonHead =>
    case _ =>
  }

  lemma FloorQuiet(s: Memory, q: Proc, op: BeltOp, v: Belt, m: Move)
    requires q.pc == DoBelt(op, v) && !op.Pop? && FloorBody(s, q, op, v) == Some(m)
    ensures m.sh.log == s.log.(pushed := m.sh.log.pushed) && m.sh.dock == s.dock && m.sh.running == s.running
    ensures !Holds(Place(m.q.pc))
  {
    match op
    case Register =>
    case Unregister =>
    case Push =>
    case _ =>
  }

  lemma HoldAccounts(s: State, pid: int, c: Choice, m: Move)
    requires BaseOk(s) && RegistryOk(s) && AccountsOk(s) && pid in s.procs && !s.procs[pid].pc.At?
    requires HoldStep(s.sh, pid, s.procs[pid], c) == Some(m) && Flows(s.procs[pid], m)
    requires Place(s.procs[pid].pc) == WantDock(Load) ==> forall x :: x in s.procs[pid].pkg ==> x.id > 0
    ensures AccountsOk(State(m.sh, s.procs[pid := m.q]))
  {
    var q := s.procs[pid];
    assert ProcOk(q) && Fresh(s.sh, q);
    hide SessionBody, FloorBody, LoaderBody, TruckBody, LoginStage, RelayStep, ProcOk, RegistryOk, BaseOk, AccountsOk,
      Flows, OffFloor, Ledger.BeltIds, Guarded;
    if q.pc.DoBelt? {
      BeltAccounts(s, pid, c, m);
    } else if q.pc.DoDock? {
      DockAccounts(s, pid, c, m);
    } else if Logging(q.pc) {
      LoginShape(s.sh, pid, q, m);
      FlowAccounts(s, pid, m);
    } else {
      RelayShape(s.sh, q, m);
      FlowAccounts(s, pid, m);
    }
  }

  lemma BeltAccounts(s: State, pid: int, c: Choice, m: Move)
    requires BaseOk(s) && RegistryOk(s) && AccountsOk(s) && pid in s.procs && s.procs[pid].pc.DoBelt?
    requires HoldStep(s.sh, pid, s.procs[pid], c) == Some(m) && Flows(s.procs[pid], m)
    ensures AccountsOk(State(m.sh, s.procs[pid := m.q]))
  {
    var q := s.procs[pid];
    assert ProcOk(q) && Fresh(s.sh, q);
    hide SessionBody, FloorBody, ProcOk, RegistryOk, BaseOk, AccountsOk, Flows, OffFloor, Ledger.BeltIds, Guarded;
    var op, v := q.pc.bop, q.pc.seenBelt;
    if SessionOp(op) {
      SessionShape(s.sh, pid, q, op, v, m);
      FlowAccounts(s, pid, m);
    } else if op.Pop? {
      PopStep(s, pid, m);
    } else {
      FloorQuiet(s.sh, q, op, v, m);
      FlowAccounts(s, pid, m);
    }
  }

  lemma DockAccounts(s: State, pid: int, c: Choice, m: Move)
    requires BaseOk(s) && RegistryOk(s) && AccountsOk(s) && pid in s.procs && s.procs[pid].pc.DoDock?
    requires HoldStep(s.sh, pid, s.procs[pid], c) == Some(m) && Flows(s.procs[pid], m)
    requires Place(s.procs[pid].pc) == WantDock(Load) ==> forall x :: x in s.procs[pid].pkg ==> x.id > 0
    ensures AccountsOk(State(m.sh, s.procs[pid := m.q]))
  {
    assert Fresh(s.sh, s.procs[pid]);
    hide Flows, LoaderBody, TruckBody, ProcOk, RegistryOk, BaseOk, AccountsOk;
    var op := s.procs[pid].pc.dop;
    if op.Load? {
      LoadStep(s, pid, c, m);
    } else if op.Batch? {
      BatchStep(s, pid, c, m);
    } else {
      TruckStep(s, pid, op, c, m);
    }
  }

  lemma PointAccounts(s: State, pid: int, c: Choice, m: Move)
    requires BaseOk(s) && RegistryOk(s) && AccountsOk(s) && pid in s.procs && s.procs[pid].pc.At?
    requires PointStep(s.sh, pid, s.procs[pid], s.procs[pid].pc.point, c) == Some(m) && Flows(s.procs[pid], m)
    ensures AccountsOk(State(m.sh, s.procs[pid := m.q]))
  {
    var q, pt := s.procs[pid], s.procs[pid].pc.point;
    assert ProcOk(q);
    hide TerminalStep, EnterStep, TokenStep, LocalStep, ProcOk, RegistryOk, BaseOk, AccountsOk, Flows, Ledger.BeltIds, Guarded;
    if AtTerminal(pt) {
      TerminalShape(s.sh, pid, q, pt, c, m);
      TerminalStops(s.sh, pid, q, pt, c, m);
      FlowAccounts(s, pid, m);
    } else if pt.WantBelt? || pt.WantDock? {
      EnterShape(s.sh, q, pt, m);
      FlowAccounts(s, pid, m);
    } else if AtToken(pt) {
      TokenShape(s.sh, q, pt, c, m);
      FlowAccounts(s, pid, m);
    } else {
      LocalAccounts(s, pid, pt, c, m);
    }
  }

  lemma TerminalStops(s: Memory, pid: int, q: Proc, pt: Point, c: Choice, m: Move)
    requires AtTerminal(pt) && TerminalStep(s, pid, q, pt, c) == Some(m)
    ensures m.sh.running ==> s.running
  {
  }

  lemma AccountsAct(s: State, pid: int, c: Choice, m: Move)
    requires BaseOk(s) && RegistryOk(s) && AccountsOk(s) && pid in s.procs
    requires ProcStep(s.sh, pid, s.procs[pid], c) == Some(m)
    requires Place(s.procs[pid].pc) == WantDock(Load) ==> forall x :: x in s.procs[pid].pkg ==> x.id > 0
    ensures AccountsOk(State(m.sh, s.procs[pid := m.q]))
  {
    assert ProcOk(s.procs[pid]);
    hide HoldStep, PointStep, BaseOk, RegistryOk, AccountsOk, ProcOk, Flows;
    ProcFlow(s.sh, pid, s.procs[pid], c, m);
    if s.procs[pid].pc.At? {
      PointAccounts(s, pid, c, m);
    } else {
      HoldAccounts(s, pid, c, m);
    }
  }

  /** A package the dispatcher holds came off the belt: it is worker-made and numbered. */
  lemma HeldIsBeltItem(s: State, pid: int)
    requires FloorOk(s) && HandOk(s) && pid in s.procs && Holding(s.procs[pid])
    ensures forall x :: x in s.procs[pid].pkg ==> BeltItem(ItemOf(x))
  {
    hide TokensOk, WorkersOk;
    var log := s.sh.log;
    forall x | x in s.procs[pid].pkg
      ensures BeltItem(ItemOf(x))
    {
      var i := |log.popped| - 1;
      assert x == log.hand[0] == log.popped[i];
      assert log.pushed[i] == log.popped[i];
    }
  }
}
