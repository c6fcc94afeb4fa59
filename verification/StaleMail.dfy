/** Departure messages that outlive the docking they were meant for. A truck takes one message per
    docking, so every further one is still in its queue when it docks again, and sends it away
    at once. */
module StaleMail {
  import opened Shared
  import opened SessionTable
  import opened Docking
  import BeltRing
  import Ledger
  import opened Protocol
  import opened Structure
  import opened Exclusion
  import opened Floor
  import opened Registry
  import opened Yard
  import opened Accounts
  import opened Rejection
  import opened Shutdown
  import opened Programs
  import opened Safety
  import opened Paths
  import opened Runs
  import ShutdownTheorems
  import LoadLimit

  /** A run in which only process `t` moves, without interruptions. */
  predicate OnlyBy(ls: seq<Label>, t: int) {
    forall i :: 0 <= i < |ls| ==> ls[i].Act? && ls[i].pid == t && !ls[i].choice.Interrupt?
  }

  ghost predicate Alone(a: State, b: State, t: int) {
    exists ls :: OnlyBy(ls, t) && Exec(a, ls) == Some(b)
  }

  lemma AloneStep(a: State, s: State, t: int, c: Choice, m: Move)
    requires Alone(a, s, t) && t in s.procs && ProcStep(s.sh, t, s.procs[t], c) == Some(m) && !c.Interrupt?
    ensures Alone(a, After(s, t, m), t)
  {
    hide ProcStep;
    var ls :| OnlyBy(ls, t) && Exec(a, ls) == Some(s);
    var ks := ls + [Act(t, c)];
    assert ks[..|ks| - 1] == ls;
    assert Exec(a, ks) == Some(After(s, t, m)) && OnlyBy(ks, t);
  }

  /** A critical section of the dock mutex by `t`. */
  lemma AloneSection(a: State, s: State, t: int, op: DockOp, c: Choice, m: Move, next: Point)
    requires Alone(a, s, t) && t in s.procs && s.procs[t].pc == At(WantDock(op)) && s.sh.dockMutex == 1 && !c.Interrupt?
    requires HoldStep(s.sh.(dockMutex := 0), t, s.procs[t].(pc := DoDock(op, s.sh.dock)), c) == Some(m)
    requires m.q.pc == UnlockDock(next)
    ensures Alone(a, After(s, t, Move(m.sh.(dockMutex := m.sh.dockMutex + 1), m.q.(pc := At(next)))), t)
  {
    hide Alone, LoaderBody, TruckBody;
    var sh1, q := s.sh.(dockMutex := 0), s.procs[t];
    var m1, m2 := Move(sh1, q.(pc := InDock(op))), Move(sh1, q.(pc := DoDock(op, s.sh.dock)));
    var m4 := Move(m.sh.(dockMutex := m.sh.dockMutex + 1), m.q.(pc := At(next)));
    AloneStep(a, s, t, Go, m1);
    AloneStep(a, After(s, t, m1), t, Go, m2);
    AfterAfter(s, t, m1, m2);
    AloneStep(a, After(s, t, m2), t, c, m);
    AfterAfter(s, t, m2, m);
    AloneStep(a, After(s, t, m), t, Go, m4);
    AfterAfter(s, t, m, m4);
  }

  /** The truck takes its next message and sets out. */
  lemma TakeMessage(a: State, s: State, t: int, sig: Signal, rest: seq<Signal>) returns (s': State)
    requires Alone(a, s, t) && s.sh.running && t in s.procs && s.procs[t].pc == At(TruckWait)
    requires t in s.sh.queue && s.sh.queue[t] == [sig] + rest && sig != EndWork
    ensures Alone(a, s', t) && s'.procs == s.procs[t := s.procs[t].(pc := At(WantDock(Depart)))]
    ensures s'.sh == s.sh.(queue := s.sh.queue[t := rest])
  {
    hide Alone;
    assert s.sh.queue[t][1..] == rest && s.sh.queue[t][0] == sig;
    var q, sh1 := s.procs[t], s.sh.(queue := s.sh.queue[t := rest]);
    var m1, m2 := Move(sh1, q.(pc := At(TruckGot(sig)))), Move(sh1, q.(pc := At(WantDock(Depart))));
    AloneStep(a, s, t, Go, m1);
    AloneStep(a, After(s, t, m1), t, Go, m2);
    AfterAfter(s, t, m1, m2);
    s' := After(s, t, m2);
  }

  lemma LeaveDock(a: State, s: State, t: int) returns (s': State)
    requires Alone(a, s, t) && t in s.procs && s.procs[t].pc == At(WantDock(Depart)) && s.sh.dockMutex == 1
    ensures Alone(a, s', t) && s'.procs == s.procs[t := s.procs[t].(pc := At(TruckHead))]
    ensures s'.sh == s.sh.(dock := Ledger.Depart(s.sh.dock, t))
  {
    hide Alone, Ledger.Depart;
    var m := TruckBody(s.sh.(dockMutex := 0), t, s.procs[t].(pc := DoDock(Depart, s.sh.dock)), Depart, s.sh.dock, Go).value;
    AloneSection(a, s, t, Depart, Go, m, TruckHead);
    s' := After(s, t, Move(m.sh.(dockMutex := 1), m.q.(pc := At(TruckHead))));
  }

  lemma DockAgain(a: State, s: State, t: int) returns (s': State)
    requires Alone(a, s, t) && s.sh.running && s.sh.dockMutex == 1 && !s.sh.dock.truck.isPresent
    requires t in s.procs && s.procs[t].pc == At(TruckHead)
    ensures Alone(a, s', t) && s'.procs == s.procs[t := s.procs[t].(pc := At(TruckWait))]
    ensures s'.sh == s.sh.(dock := Ledger.Claim(s.sh.dock, t, 200.0, 1.0))
  {
    hide Alone, Ledger.Claim;
    var q, c := s.procs[t].(pc := At(WantDock(Claim))), Specs(200.0, 1.0);
    var m0 := Move(s.sh, q);
    AloneStep(a, s, t, Go, m0);
    var m := TruckBody(s.sh.(dockMutex := 0), t, q.(pc := DoDock(Claim, s.sh.dock)), Claim, s.sh.dock, c).value;
    AloneSection(a, After(s, t, m0), t, Claim, c, m, TruckWait);
    var m' := Move(m.sh.(dockMutex := 1), m.q.(pc := At(TruckWait)));
    AfterAfter(s, t, m0, m');
    s' := After(s, t, m');
  }

  /** Truck `t` waits on a later docking than in `s`, with a message already in its queue. */
  ghost predicate MeetsOldMessage(s: State, s': State, t: int) {
    && t in s'.procs && s'.procs[t].pc == At(TruckWait)
    && s'.sh.dock.dockings > s.sh.dock.dockings && Queued(s'.sh.queue, t) != []
  }

  /** With two messages the truck leaves on the first and meets the second on its next docking,
      empty and called by nobody. */
  lemma SecondMessageStays(s: State, capacity: nat, t: int) returns (s': State)
    requires Reachable(s, capacity) && t in s.procs && s.procs[t].pc == At(TruckWait) && s.sh.dockMutex == 1
    requires s.sh.running && |Queued(s.sh.queue, t)| >= 2
    ensures Alone(s, s', t) && MeetsOldMessage(s, s', t) && s'.sh.dock.truck == Docked(t, 200.0, 1.0) && !s'.sh.dock.called
  {
    Docked1(s, capacity, t);
    assert OnlyBy([], t) && Exec(s, []) == Some(s);
    hide Reachable, Alone;
    var q := Queued(s.sh.queue, t);
    assert q == [q[0]] + q[1..] && q[0] in q;
    var s1 := TakeMessage(s, s, t, q[0], q[1..]);
    var s2 := LeaveDock(s, s1, t);
    s' := DockAgain(s, s2, t);
  }

  lemma Docked1(s: State, capacity: nat, t: int)
    requires Reachable(s, capacity) && t in s.procs && s.procs[t].pc == At(TruckWait)
    ensures s.sh.dock.truck.isPresent && s.sh.dock.truck.id == t && s.procs[t].kind == Truck
    ensures s.sh.running ==> EndWork !in Queued(s.sh.queue, t)
  {
    hide Reachable, BaseOk, FloorOk, RegistryOk, AccountsOk, RejectOk, StopOk, PendingOk, Ledger.DockOk;
    ReachableInv(s, capacity);
    assert Docks(s.procs[t]) && ProgramFacts(s.sh, s.procs[t]);
    ShutdownTheorems.EndWorkOnlyAfterStop(s, capacity, t);
  }

  /** Dockings so far and messages to come, with the message in hand. */
  function Budget(s: Memory, t: int, q: Proc): int {
    s.dock.dockings + |Queued(s.queue, t)| + One(!Place(q.pc).TruckWait?)
  }

  /** A truck's own step never raises its budget, and after the stop it does not dock any more. */
  predicate Spends(s: Memory, t: int, q: Proc, m: Move) {
    && m.sh.running == s.running && Budget(m.sh, t, m.q) <= Budget(s, t, q)
    && (!s.running && Place(q.pc) != WantDock(Claim) ==>
          m.sh.dock.dockings == s.dock.dockings && Place(m.q.pc) != WantDock(Claim))
  }

  lemma LocalSpends(s: Memory, t: int, q: Proc, pt: Point, c: Choice, m: Move)
    requires q.pc == At(pt) && InProgram(Truck, pt) && !c.Interrupt? && LocalStep(s, t, q, pt, c) == Some(m)
    ensures Spends(s, t, q, m)
  {
    match pt
    case TruckHead =>
    case TruckWait =>
    case TruckGot(_) =>
    case _ =>
  }

  lemma EnterSpends(s: Memory, t: int, q: Proc, pt: Point, m: Move)
    requires q.pc == At(pt) && EnterStep(s, q, pt) == Some(m)
    ensures Spends(s, t, q, m)
  {
    match pt
    case WantBelt(_) =>
    case WantDock(_) =>
    case _ =>
  }

  lemma SessionSpends(s: Memory, t: int, q: Proc, op: BeltOp, v: Belt, m: Move)
    requires q.kind == Truck && q.pc == DoBelt(op, v) && SessionBody(s, t, q, op, v.users) == Some(m)
    ensures Spends(s, t, q, m)
  {
    hide LoginSlot, SetUser;
    match op
    case Login =>
    case Logout =>
    case Spawn =>
    case Finish =>
    case _ =>
  }

  lemma LoginSpends(s: Memory, t: int, q: Proc, m: Move)
    requires q.kind == Truck && LoginStage(s, t, q) == Some(m)
    ensures Spends(s, t, q, m)
  {
    hide SetUser, Stored;
    match q.pc
    case LoginMark(_) =>
    case LoginName(_) =>
    case LoginPid(_) =>
    case _ =>
  }

  lemma DockSpends(s: Memory, t: int, q: Proc, op: DockOp, c: Choice, m: Move)
    requires q.pc == DoDock(op, s.dock) && TruckBody(s, t, q, op, s.dock, c) == Some(m)
    ensures Spends(s, t, q, m)
  {
    hide Docked, ShutdownLeave, DepartLeave, CleanupLeave;
    match op
    case Claim =>
    case Shutdown =>
    case Depart =>
    case Cleanup =>
    case _ =>
  }

  lemma RelaySpends(s: Memory, t: int, q: Proc, m: Move)
    requires !q.pc.SendDock? && RelayStep(s, q) == Some(m)
    ensures Spends(s, t, q, m)
  {
    match q.pc
    case InBelt(_) =>
    case UnlockBelt(_) =>
    case InDock(_) =>
    case UnlockDock(_) =>
    case _ =>
  }

  lemma StepSpends(s: Memory, t: int, q: Proc, c: Choice, m: Move)
    requires q.kind == Truck && ProgramPC(Truck, q.pc) && Fresh(s, q) && !c.Interrupt? && ProcStep(s, t, q, c) == Some(m)
    ensures Spends(s, t, q, m)
  {
    hide SessionBody, FloorBody, LoaderBody, TruckBody, LoginStage, RelayStep, TerminalStep, EnterStep, TokenStep, LocalStep, Spends;
    if q.pc.At? {
      if q.pc.point.WantBelt? || q.pc.point.WantDock? {
        EnterSpends(s, t, q, q.pc.point, m);
      } else {
        LocalSpends(s, t, q, q.pc.point, c, m);
      }
    } else if q.pc.DoBelt? {
      SessionSpends(s, t, q, q.pc.bop, q.pc.seenBelt, m);
    } else if q.pc.DoDock? {
      DockSpends(s, t, q, q.pc.dop, c, m);
    } else if Logging(q.pc) {
      LoginSpends(s, t, q, m);
    } else {
      RelaySpends(s, t, q, m);
    }
  }

  lemma LabelSpends(s: State, t: int, c: Choice, m: Move)
    requires Inv(s) && t in s.procs && s.procs[t].kind == Truck && !c.Interrupt? && ProcStep(s.sh, t, s.procs[t], c) == Some(m)
    ensures Spends(s.sh, t, s.procs[t], m) && m.q.kind == Truck
  {
    var q := s.procs[t];
    assert ProcOk(q) && Fresh(s.sh, q) && ProgramFacts(s.sh, q);
    hide BaseOk, FloorOk, RegistryOk, YardOk, AccountsOk, RejectOk, StopOk, ProgramsOk, ProcStep, ProcOk, ProgramPC, Spends;
    StepSpends(s.sh, t, q, c, m);
    ProcGuarded(s.sh, t, q, c, m);
  }

  /** The same over a run of the truck alone. */
  ghost predicate Spent(s: State, s': State, t: int)
    requires t in s.procs
  {
    && t in s'.procs && s'.procs[t].kind == Truck && s'.sh.running == s.sh.running
    && Budget(s'.sh, t, s'.procs[t]) <= Budget(s.sh, t, s.procs[t])
    && (!s.sh.running && Place(s.procs[t].pc) != WantDock(Claim) ==>
          s'.sh.dock.dockings == s.sh.dock.dockings && Place(s'.procs[t].pc) != WantDock(Claim))
  }

  lemma {:induction false} RunSpends(s: State, ls: seq<Label>, t: int)
    requires Inv(s) && t in s.procs && s.procs[t].kind == Truck && OnlyBy(ls, t) && Exec(s, ls).Some?
    ensures Inv(Exec(s, ls).value) && Spent(s, Exec(s, ls).value, t)
  {
    hide Inv, ProcStep, Budget;
    if ls != [] {
      var before, l := ls[..|ls| - 1], ls[|ls| - 1];
      RunSpends(s, before, t);
      var s1 := Exec(s, before).value;
      StepInv(s1, l);
      LabelSpends(s1, t, l.choice, ProcStep(s1.sh, t, s1.procs[t], l.choice).value);
    }
  }

  /** Left to itself, a waiting truck comes to wait on a later docking with a message already in its
      queue exactly if the system runs and it now has two messages. */
  lemma StaleExactlyWhen(s: State, capacity: nat, t: int)
    requires Reachable(s, capacity) && t in s.procs && s.procs[t].pc == At(TruckWait) && s.sh.dockMutex == 1
    ensures (exists s' :: Alone(s, s', t) && MeetsOldMessage(s, s', t)) <==> s.sh.running && |Queued(s.sh.queue, t)| >= 2
  {
    hide Reachable, Exec, Inv;
    ReachableInv(s, capacity);
    Docked1(s, capacity, t);
    if s.sh.running && |Queued(s.sh.queue, t)| >= 2 {
      var s' := SecondMessageStays(s, capacity, t);
    }
    forall s' | Alone(s, s', t) && MeetsOldMessage(s, s', t)
      ensures s.sh.running && |Queued(s.sh.queue, t)| >= 2
    {
      var ls :| OnlyBy(ls, t) && Exec(s, ls) == Some(s');
      RunSpends(s, ls, t);
    }
  }

  /** A package of which ten fill the smallest truck to more than 99%. */
  const BIG := Package(0, 1, TypeC, 16.0, VOL_C)

  lemma {:induction false} FillUp(capacity: nat, n: nat) returns (s: State)
    requires capacity > 0 && n <= 9
    ensures LoadLimit.Crew(s, capacity, BIG, n, 200.0, 1.0) && s.sh.queue == map[]
  {
    if n == 0 {
      s := LoadLimit.Assemble(capacity, BIG, 200.0, 1.0);
    } else {
      hide LoadLimit.Crew;
      s := FillUp(capacity, n - 1);
      s := LoadLimit.Deliver(s, capacity, BIG, n - 1, 200.0, 1.0);
    }
  }

  /** The dispatcher alone brings this about, under the lock: it sends one departure when the truck is
      full and another for the next package, which the truck refuses. No terminal takes part. */
  lemma DispatcherSendsTwice(capacity: nat) returns (s: State)
    requires capacity > 0
    ensures Reachable(s, capacity) && s.procs.Keys == {1, 2, 3} && s.sh.running && s.sh.dockMutex == 1
    ensures s.procs[3].pc == At(TruckWait) && s.sh.dock.dockings == 1 && Queued(s.sh.queue, 3) == [Departure, Departure]
  {
    s := FillUp(capacity, 9);
    s := LoadLimit.Deliver(s, capacity, BIG, 9, 200.0, 1.0);
    assert Queued(s.sh.queue, 3) == [Departure];
    s := RefuseNext(s, capacity);
    CalmReaches(s, capacity);
  }

  lemma RefuseNext(s: State, capacity: nat) returns (s': State)
    requires LoadLimit.Crew(s, capacity, BIG, 10, 200.0, 1.0)
    ensures Calm(s', capacity) && s'.procs.Keys == {1, 2, 3} && s'.procs[3] == s.procs[3]
    ensures s'.sh.running && s'.sh.dock.dockings == 1 && s'.sh.queue == Send(s.sh.queue, 3, Departure)
  {
    assert capacity > 0;
    hide Calm, BeltRing.RingOk, BeltRing.Push, BeltRing.Pop, Send;
    var r := s.sh.belt.ring;
    s' := Produce(s, capacity, 1, BIG);
    LoadLimit.PushThenPop(r, BIG);
    var p := BIG.(id := r.total + 1);
    s' := Fetch(s', capacity, 2, p);
    s' := Refuse(s', capacity, 2, p);
  }

  /** The terminal, which takes no lock, can also send late: between its read of the dock and its
      send the truck can leave and dock again. */
  lemma LateDeparture(capacity: nat) returns (s: State, s': State)
    requires capacity > 0
    ensures Reachable(s, capacity) && 3 in s.procs && 4 in s.procs && s.procs[4].pc == At(DepartSend(3)) && s.sh.dock.dockings == 1
    ensures Alone(s, s', 3) && s'.procs == s.procs && s'.sh.dock.dockings == 2
    ensures s'.sh.dock.truck == Docked(3, 200.0, 1.0) && !s'.sh.dock.called && Queued(s'.sh.queue, 3) == []
    ensures Step(s', Act(4, Go)).Some? && Queued(Step(s', Act(4, Go)).value.sh.queue, 3) == [Departure]
  {
    s := SetUpRace(capacity);
    CalmReaches(s, capacity);
    assert OnlyBy([], 3) && Exec(s, []) == Some(s);
    hide Reachable, Alone, Path, Init;
    assert s.sh.queue[3] == [Departure] + [];
    var s1 := TakeMessage(s, s, 3, Departure, []);
    s1 := LeaveDock(s, s1, 3);
    s' := DockAgain(s, s1, 3);
    assert s'.procs == s.procs;
    SendStep(s', 3);
  }

  lemma SendStep(s: State, to: int)
    requires 4 in s.procs && s.procs[4].pc == At(DepartSend(to))
    ensures Step(s, Act(4, Go)).Some? && Step(s, Act(4, Go)).value.sh.queue == Send(s.sh.queue, to, Departure)
  {
    hide Send;
  }

  /** The operator's terminal, process 4, has read the dock and is about to send a departure. */
  lemma ReadDock(s: State, capacity: nat) returns (s': State)
    requires Stands(s, capacity, 4, TermHead) && s.procs[4].slot >= 0 && Operator in s.procs[4].role
    requires s.sh.running && s.sh.dock.truck.isPresent
    ensures Calm(s', capacity) && s'.sh == s.sh
    ensures s'.procs == s.procs[4 := s.procs[4].(pc := At(DepartSend(s.sh.dock.truck.id)))]
  {
    var s0 := AtPrompt(s, capacity);
    Facts(s0, capacity, 4);
    hide Path, Stored;
    var a, q := Init(capacity), s0.procs[4];
    var role := User(s.sh.belt.users, q.slot).role;
    assert Operator in role * {Operator, SysAdmin};
    var m1, m2 := Move(s.sh, q.(pc := At(DepartId))), Move(s.sh, q.(pc := At(DepartSend(s.sh.dock.truck.id))));
    Go1(a, s0, 4, DepartCommand, m1);
    Go1(a, After(s0, 4, m1), 4, Go, m2);
    AfterAfter(s0, 4, m1, m2);
    s' := After(s0, 4, m2);
  }

  lemma SendOff(s: State, capacity: nat, to: int) returns (s': State)
    requires Stands(s, capacity, 4, DepartSend(to))
    ensures Calm(s', capacity) && s'.sh == s.sh.(queue := Send(s.sh.queue, to, Departure))
    ensures s'.procs == s.procs[4 := s.procs[4].(pc := At(TermHead))]
  {
    hide Path, Send;
    var m := Move(s.sh.(queue := Send(s.sh.queue, to, Departure)), s.procs[4].(pc := At(TermHead)));
    Go1(Init(capacity), s, 4, Go, m);
    s' := After(s, 4, m);
  }

  /** Truck 3 is at the dock for the first time, with one departure in its queue, and the terminal
      has read its pid for another. */
  ghost predicate AboutToRace(s: State, capacity: nat) {
    && Stands(s, capacity, 3, TruckWait) && Stands(s, capacity, 4, DepartSend(3))
    && s.sh.running && s.sh.dock.truck.isPresent && s.sh.dock.truck.id == 3 && s.sh.dock.dockings == 1
    && Queued(s.sh.queue, 3) == [Departure]
  }

  lemma SetUpRace(capacity: nat) returns (s: State)
    requires capacity > 0
    ensures AboutToRace(s, capacity)
  {
    s := TwoAtWork(capacity);
    hide Calm;
    s := ReadDock(s, capacity);
    s := SendOff(s, capacity, 3);
    s := ReadDock(s, capacity);
  }

  lemma TwoAtWork(capacity: nat) returns (s: State)
    requires capacity > 0
    ensures Stands(s, capacity, 3, TruckWait) && Stands(s, capacity, 4, TermHead)
    ensures s.procs[4].slot >= 0 && Operator in s.procs[4].role && s.sh.running && s.sh.queue == map[]
    ensures s.sh.dock.truck.isPresent && s.sh.dock.truck.id == 3 && s.sh.dock.dockings == 1
  {
    hide Calm;
    var i, j;
    s, i, j := HireTruck(capacity);
    s := DockAt(s, capacity, 3, 200.0, 1.0);
  }

  lemma HireTruck(capacity: nat) returns (s: State, i: nat, j: nat)
    requires capacity > 0
    ensures Calm(s, capacity)
    ensures s.procs == map[3 := Joined(Truck, "Truck_1", {Operator}, i), 4 := Joined(Terminal, TERMINAL_NAME, {Operator, SysAdmin}, j)]
    ensures s.sh == Init(capacity).sh.(belt := Init(capacity).sh.belt.(users := s.sh.belt.users))
  {
    StartCalm(capacity);
    StoredApart("Truck_1", TERMINAL_NAME);
    hide Calm, Stored;
    s, i := Join(Init(capacity), capacity, 3, Truck, "Truck_1", {Operator}, 0);
    assert s.procs == map[3 := Joined(Truck, "Truck_1", {Operator}, i)];
    s, j := Join(s, capacity, 4, Terminal, TERMINAL_NAME, {Operator, SysAdmin}, 1);
  }
}
