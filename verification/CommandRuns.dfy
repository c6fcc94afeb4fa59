/** The operator's commands from the prompt to their end: run alone, the scans and sends of the
    transition system do what the commands of the console do in one piece. */
module CommandRuns {
  import opened Shared
  import opened SessionTable
  import opened Docking
  import Ledger
  import opened Protocol
  import opened Structure
  import opened Exclusion
  import opened Floor
  import opened Mail
  import opened Registry
  import opened Yard
  import opened Accounts
  import opened Rejection
  import opened Shutdown
  import opened Programs
  import opened Safety
  import opened Paths
  import opened Runs
  import opened Console
  import opened CommandTheorems
  import SessionTheorems

  /** `n` further steps of process `p`, which gets no other command. */
  function Gos(p: int, n: nat): (ls: seq<Label>)
    ensures |ls| == n && Uninterrupted(ls)
  {
    seq(n, _ => Act(p, Go))
  }

  lemma First(s: State, l: Label, ls: seq<Label>)
    requires Step(s, l).Some?
    ensures Exec(s, [l] + ls) == Exec(Step(s, l).value, ls)
  {
    hide Step;
    assert [l][..0] == [] && Exec(s, []) == Some(s) && Exec(s, [l]) == Step(s, l);
    ExecJoin(s, [l], ls);
  }

  /** One more `Go` in front. */
  lemma GoFirst(s: State, p: int, m: Move, n: nat)
    requires p in s.procs && ProcStep(s.sh, p, s.procs[p], Go) == Some(m)
    ensures Exec(s, Gos(p, n + 1)) == Exec(After(s, p, m), Gos(p, n))
  {
    hide ProcStep;
    First(s, Act(p, Go), Gos(p, n));
    assert [Act(p, Go)] + Gos(p, n) == Gos(p, n + 1);
  }

  lemma NoGos(s: State, p: int)
    ensures Exec(s, Gos(p, 0)) == Some(s)
  {
  }

  /** Process `p` is back at the head of its loop, and the queue is `queue`. */
  function Done(s: State, p: int, queue: map<int, seq<Signal>>): State
    requires p in s.procs
  {
    State(s.sh.(queue := queue), s.procs[p := s.procs[p].(pc := At(TermHead))])
  }

  /** The pid that a search from slot `i` on finds. */
  function FoundFrom(users: Users, i: nat): int
    requires i <= |users|
  {
    match FirstNamed(users, EXPRESS_NAME, i)
    case None => -1
    case Some(k) => users[k].sessionPid
  }

  lemma {:induction false} VipScanRun(s: State, p: int, i: nat) returns (n: nat)
    requires p in s.procs && s.procs[p].pc == At(VipScan(i)) && i <= |s.sh.belt.users|
    ensures Exec(s, Gos(p, n)) == Some(Done(s, p, Send(s.sh.queue, FoundFrom(s.sh.belt.users, i), ExpressLoad)))
    decreases |s.sh.belt.users| - i
  {
    hide Send, Exec;
    var users, q := s.sh.belt.users, s.procs[p];
    if i == |users| {
      NoSend(s.sh.queue);
      var m := Move(s.sh, q.(pc := At(TermHead)));
      GoFirst(s, p, m, 0);
      NoGos(After(s, p, m), p);
      n := 1;
    } else if users[i].active && users[i].username == EXPRESS_NAME {
      n := FoundRun(s, p, i);
    } else {
      var m := Move(s.sh, q.(pc := At(VipScan(i + 1))));
      var n1 := VipScanRun(After(s, p, m), p, i + 1);
      GoFirst(s, p, m, n1);
      n := n1 + 1;
      DoneAfter(s, p, m, Send(s.sh.queue, FoundFrom(users, i), ExpressLoad));
    }
  }

  lemma NoSend(queue: map<int, seq<Signal>>)
    ensures Send(queue, -1, ExpressLoad) == queue
  {
  }

  lemma DoneAfter(s: State, p: int, m: Move, queue: map<int, seq<Signal>>)
    requires p in s.procs && m.sh == s.sh && m.q == s.procs[p].(pc := m.q.pc)
    ensures Done(After(s, p, m), p, queue) == Done(s, p, queue)
  {
  }

  lemma FoundRun(s: State, p: int, i: nat) returns (n: nat)
    requires p in s.procs && s.procs[p].pc == At(VipScan(i)) && i < |s.sh.belt.users|
    requires s.sh.belt.users[i].active && s.sh.belt.users[i].username == EXPRESS_NAME
    ensures Exec(s, Gos(p, n)) == Some(Done(s, p, Send(s.sh.queue, s.sh.belt.users[i].sessionPid, ExpressLoad)))
  {
    hide Send, Exec;
    var q, to := s.procs[p], s.sh.belt.users[i].sessionPid;
    var m1, m2 := Move(s.sh, q.(pc := At(VipPid(i)))), Move(s.sh, q.(pc := At(VipSend(to))));
    var m3 := Move(s.sh.(queue := Send(s.sh.queue, to, ExpressLoad)), q.(pc := At(TermHead)));
    GoFirst(s, p, m1, 2);
    GoFirst(After(s, p, m1), p, m2, 1);
    AfterAfter(s, p, m1, m2);
    GoFirst(After(s, p, m2), p, m3, 0);
    AfterAfter(s, p, m2, m3);
    NoGos(After(s, p, m3), p);
    n := 3;
  }

  /** `vip` of an operator or administrator, run alone, sends one express order to the process in the
      first active slot of the express service's name, and does nothing else. */
  lemma VipRun(s: State, capacity: nat, p: int) returns (n: nat)
    requires Reachable(s, capacity) && p in s.procs && s.procs[p].pc == At(TermIdle)
    requires Operator in s.procs[p].role || SysAdmin in s.procs[p].role
    ensures Exec(s, [Act(p, VipCommand)] + Gos(p, n)) ==
      Some(Done(s, p, Send(s.sh.queue, PidNamed(s.sh.belt.users, EXPRESS_NAME), ExpressLoad)))
  {
    hide Reachable, Exec, Send, ProcStep;
    CommandsNeedRights(s, capacity, p, VipCommand);
    var m := Move(s.sh, s.procs[p].(pc := At(VipScan(0))));
    n := VipScanRun(After(s, p, m), p, 0);
    First(s, Act(p, VipCommand), Gos(p, n));
    DoneAfter(s, p, m, Send(s.sh.queue, PidNamed(s.sh.belt.users, EXPRESS_NAME), ExpressLoad));
  }

  /** With no login in progress, the slot of a logged-in express process is the only one of its name. */
  lemma ExpressIsFound(s: State, capacity: nat, e: int)
    requires Reachable(s, capacity) && s.sh.beltMutex == 1 && e in s.procs && s.procs[e].slot >= 0 && s.procs[e].kind == Express
    ensures PidNamed(s.sh.belt.users, EXPRESS_NAME) == e && e > 0
  {
    hide Reachable, FloorOk, RegistryOk, YardOk, AccountsOk, RejectOk, StopOk, ProgramsOk, Stored;
    ReachableInv(s, capacity);
    assert ProcOk(s.procs[e]) && e > 0;
    hide BaseOk, ProcOk;
    var users, k := s.sh.belt.users, s.procs[e].slot;
    SessionTheorems.SessionsAreDistinct(s, capacity, e, e);
    NoNul();
    StoredIsTruncated(EXPRESS_NAME);
    forall j | 0 <= j < |users| && j != k
      ensures !(users[j].active && users[j].username == EXPRESS_NAME)
    {
      SessionTheorems.TableMatchesProcesses(s, capacity, j, k);
    }
    assert IsFirstNamed(users, EXPRESS_NAME, k);
  }

  lemma NoNul()
    ensures '\0' !in EXPRESS_NAME && |EXPRESS_NAME| <= 31
  {
  }

  /** So the order reaches the express process, behind its other messages, and nobody else. */
  lemma VipReachesExpress(s: State, capacity: nat, p: int, e: int) returns (n: nat)
    requires Reachable(s, capacity) && p in s.procs && s.procs[p].pc == At(TermIdle) && s.sh.beltMutex == 1
    requires Operator in s.procs[p].role || SysAdmin in s.procs[p].role
    requires e in s.procs && s.procs[e].slot >= 0 && s.procs[e].kind == Express
    ensures var r := Exec(s, [Act(p, VipCommand)] + Gos(p, n));
      && r.Some? && r.value.procs == s.procs[p := s.procs[p].(pc := At(TermHead))] && r.value.sh == s.sh.(queue := r.value.sh.queue)
      && Queued(r.value.sh.queue, e) == Queued(s.sh.queue, e) + [ExpressLoad]
      && forall x :: x != e ==> Queued(r.value.sh.queue, x) == Queued(s.sh.queue, x)
  {
    hide Reachable, Exec, Send;
    n := VipRun(s, capacity, p);
    ExpressIsFound(s, capacity, e);
    forall x
      ensures Queued(Send(s.sh.queue, e, ExpressLoad), x) == Queued(s.sh.queue, x) + if x == e && e > 0 then [ExpressLoad] else []
    {
      SendExactly(s.sh.queue, e, ExpressLoad, x);
    }
  }

  /** `depart` of an operator or administrator with a truck at the dock, run alone, sends one departure
      to the pid in the dock record, and does nothing else. */
  lemma DepartRun(s: State, capacity: nat, p: int)
    requires Reachable(s, capacity) && p in s.procs && s.procs[p].pc == At(TermIdle) && s.sh.dock.truck.isPresent
    requires Operator in s.procs[p].role || SysAdmin in s.procs[p].role
    ensures Exec(s, [Act(p, DepartCommand)] + Gos(p, 2)) == Some(Done(s, p, Send(s.sh.queue, s.sh.dock.truck.id, Departure)))
  {
    hide Reachable, Exec, Send;
    CommandsNeedRights(s, capacity, p, DepartCommand);
    var q, to := s.procs[p], s.sh.dock.truck.id;
    var m1, m2 := Move(s.sh, q.(pc := At(DepartId))), Move(s.sh, q.(pc := At(DepartSend(to))));
    var m3 := Move(s.sh.(queue := Send(s.sh.queue, to, Departure)), q.(pc := At(TermHead)));
    First(s, Act(p, DepartCommand), Gos(p, 2));
    GoFirst(After(s, p, m1), p, m2, 1);
    AfterAfter(s, p, m1, m2);
    GoFirst(After(s, p, m2), p, m3, 0);
    AfterAfter(s, p, m2, m3);
    NoGos(After(s, p, m3), p);
  }

  /** A stop scan has told the first `i` slots and goes on to the end. */
  lemma {:induction false} StopScanRun(s: State, p: int, i: nat, queue: map<int, seq<Signal>>) returns (n: nat, s': State)
    requires p in s.procs && s.procs[p].pc == At(StopScan(i)) && i <= |s.sh.belt.users| && s.sh.queue == Broadcast(queue, s.sh.belt.users, i)
    ensures Exec(s, Gos(p, n)) == Some(s') && s'.procs == s.procs[p := s.procs[p].(pc := At(WantBelt(Logout)))]
    ensures s'.sh == s.sh.(queue := Broadcast(queue, s.sh.belt.users, |s.sh.belt.users|), log := s'.sh.log)
    decreases |s.sh.belt.users| - i
  {
    hide Send, Exec;
    var users, q := s.sh.belt.users, s.procs[p];
    if i == |users| {
      var m := Move(s.sh, q.(pc := At(WantBelt(Logout))));
      GoFirst(s, p, m, 0);
      NoGos(After(s, p, m), p);
      n, s' := 1, After(s, p, m);
    } else {
      var k, s1 := SlotRun(s, p, i);
      n, s' := StopScanRun(s1, p, i + 1, queue);
      JoinGos(s, p, k, n);
      n := k + n;
      assert s'.procs == s.procs[p := q.(pc := At(WantBelt(Logout)))];
    }
  }

  lemma JoinGos(s: State, p: int, k: nat, n: nat)
    requires Exec(s, Gos(p, k)).Some?
    ensures Exec(s, Gos(p, k + n)) == Exec(Exec(s, Gos(p, k)).value, Gos(p, n))
  {
    ExecJoin(s, Gos(p, k), Gos(p, n));
    assert Gos(p, k) + Gos(p, n) == Gos(p, k + n);
  }

  lemma SlotRun(s: State, p: int, i: nat) returns (k: nat, s': State)
    requires p in s.procs && s.procs[p].pc == At(StopScan(i)) && i < |s.sh.belt.users|
    ensures Exec(s, Gos(p, k)) == Some(s') && s'.procs == s.procs[p := s.procs[p].(pc := At(StopScan(i + 1)))]
    ensures s'.sh == s.sh.(log := s'.sh.log, queue :=
      if s.sh.belt.users[i].active then Send(s.sh.queue, s.sh.belt.users[i].sessionPid, EndWork) else s.sh.queue)
  {
    hide Send, Exec;
    if s.sh.belt.users[i].active {
      s' := TellRun(s, p, i);
      k := 3;
    } else {
      var m := Move(Swept(s.sh, i + 1), s.procs[p].(pc := At(StopScan(i + 1))));
      GoFirst(s, p, m, 0);
      NoGos(After(s, p, m), p);
      k, s' := 1, After(s, p, m);
    }
  }

  lemma TellRun(s: State, p: int, i: nat) returns (s': State)
    requires p in s.procs && s.procs[p].pc == At(StopScan(i)) && i < |s.sh.belt.users| && s.sh.belt.users[i].active
    ensures Exec(s, Gos(p, 3)) == Some(s') && s'.procs == s.procs[p := s.procs[p].(pc := At(StopScan(i + 1)))]
    ensures s'.sh == s.sh.(log := s'.sh.log, queue := Send(s.sh.queue, s.sh.belt.users[i].sessionPid, EndWork))
  {
    hide Send, Exec;
    var u, q := s.sh.belt.users[i], s.procs[p];
    var m1, m2 := Move(s.sh, q.(pc := At(StopPid(i)))), Move(s.sh, q.(pc := At(StopSend(i, u.sessionPid))));
    var m3 := Move(Swept(s.sh, i + 1).(queue := Send(s.sh.queue, u.sessionPid, EndWork)), q.(pc := At(StopScan(i + 1))));
    GoFirst(s, p, m1, 2);
    GoFirst(After(s, p, m1), p, m2, 1);
    AfterAfter(s, p, m1, m2);
    GoFirst(After(s, p, m2), p, m3, 0);
    AfterAfter(s, p, m2, m3);
    NoGos(After(s, p, m3), p);
    s' := After(s, p, m3);
  }

  /** `stop` of an administrator, run alone, clears `running` and broadcasts `EndWork` over the whole
      table, as `HandleStop` does, and leads to the logout; without the right it changes nothing. */
  lemma StopRun(s: State, capacity: nat, p: int) returns (n: nat, s': State)
    requires Reachable(s, capacity) && p in s.procs && s.procs[p].pc == At(TermIdle)
    ensures SysAdmin in s.procs[p].role ==>
      && Exec(s, [Act(p, StopCommand)] + Gos(p, n)) == Some(s')
      && s'.procs == s.procs[p := s.procs[p].(pc := At(WantBelt(Logout)))]
      && s'.sh == s.sh.(running := false, queue := Broadcast(s.sh.queue, s.sh.belt.users, |s.sh.belt.users|), log := s'.sh.log)
    ensures SysAdmin !in s.procs[p].role ==> Step(s, Act(p, StopCommand)) == Some(Done(s, p, s.sh.queue))
  {
    OwnRole(s, capacity, p);
    TwoFlags(s.procs[p].role, SysAdmin, SysAdmin);
    assert {SysAdmin, SysAdmin} == {SysAdmin};
    hide Reachable, Exec, HasFlag;
    if SysAdmin in s.procs[p].role {
      var m := Move(s.sh.(running := false), s.procs[p].(pc := At(StopScan(0))));
      var s1 := After(s, p, m);
      n, s' := StopScanRun(s1, p, 0, s.sh.queue);
      First(s, Act(p, StopCommand), Gos(p, n));
      assert s'.procs == s.procs[p := s.procs[p].(pc := At(WantBelt(Logout)))];
    } else {
      n, s' := 0, s;
    }
  }

  /** Any process that the programs can be can be started at any time, and nothing else happens. */
  lemma StartExactlyWhen(s: State, pid: int, kind: Kind, name: string, role: RoleMask, quota: int)
    ensures Step(s, Fork(pid, kind, name, role, quota)) ==
      if pid > 0 && pid !in s.procs
         && (kind == Dispatcher ==> name == "System-Dispatcher") && (kind == Express ==> name == "System-Express")
         && (kind == Terminal ==> name == "AdminConsole")
      then Some(s.(procs := s.procs[pid := Proc(kind, name, role, quota, At(WantBelt(Login)), -1, [], {})]))
      else None
  {
  }

  /** Truck 3 at the dock, an operator at the prompt of terminal 4, and express process 5 waiting. */
  ghost predicate Staffed(s: State, capacity: nat) {
    && Stands(s, capacity, 3, TruckWait) && Stands(s, capacity, 4, TermIdle) && Stands(s, capacity, 5, ExprWait)
    && Operator in s.procs[4].role && s.procs[5].kind == Express && s.procs[5].slot >= 0
    && s.sh.dock == Ledger.Claim(Ledger.EMPTY_DOCK, 3, 200.0, 1.0) && s.sh.queue == map[]
  }

  lemma HireStaff(capacity: nat) returns (s: State, i: nat, j: nat, k: nat)
    requires capacity > 0
    ensures Calm(s, capacity) && s.sh.running && s.sh.queue == map[] && s.sh.dock == Ledger.EMPTY_DOCK
    ensures s.procs == map[3 := Joined(Truck, "Truck_1", {Operator}, i), 4 := Joined(Terminal, TERMINAL_NAME, {Operator, SysAdmin}, j),
                           5 := Joined(Express, EXPRESS_NAME, {Operator}, k)]
  {
    StartCalm(capacity);
    StoredApart("Truck_1", TERMINAL_NAME);
    StoredApart("Truck_1", EXPRESS_NAME);
    StoredApart(TERMINAL_NAME, EXPRESS_NAME);
    hide Calm, Stored;
    s, i := Join(Init(capacity), capacity, 3, Truck, "Truck_1", {Operator}, 0);
    assert s.procs == map[3 := Joined(Truck, "Truck_1", {Operator}, i)];
    s, j, k := HireTwoMore(s, capacity, i);
  }

  lemma HireTwoMore(s: State, capacity: nat, i: nat) returns (s': State, j: nat, k: nat)
    requires Calm(s, capacity) && s.procs == map[3 := Joined(Truck, "Truck_1", {Operator}, i)]
    requires |s.sh.belt.users| == MAX_USERS_SESSIONS && FreeFrom(s.sh.belt.users, 1)
    requires Stored("Truck_1") != Stored(TERMINAL_NAME) && Stored("Truck_1") != Stored(EXPRESS_NAME)
    requires Stored(TERMINAL_NAME) != Stored(EXPRESS_NAME)
    ensures Calm(s', capacity) && s'.sh == s.sh.(belt := s.sh.belt.(users := s'.sh.belt.users))
    ensures s'.procs == s.procs[4 := Joined(Terminal, TERMINAL_NAME, {Operator, SysAdmin}, j)][5 := Joined(Express, EXPRESS_NAME, {Operator}, k)]
  {
    hide Calm, Stored;
    s', j := Join(s, capacity, 4, Terminal, TERMINAL_NAME, {Operator, SysAdmin}, 1);
    assert forall p :: p in s'.procs ==> p == 3 || p == 4;
    s', k := Join(s', capacity, 5, Express, EXPRESS_NAME, {Operator}, 2);
  }

  lemma Staff(capacity: nat) returns (s: State)
    requires capacity > 0
    ensures Staffed(s, capacity)
  {
    hide Calm, Ledger.Claim;
    var i, j, k;
    s, i, j, k := HireStaff(capacity);
    s := DockAt(s, capacity, 3, 200.0, 1.0);
    s := AwaitOrder(s, capacity);
    s := AtPrompt(s, capacity);
  }

  lemma AwaitOrder(s: State, capacity: nat) returns (s': State)
    requires Stands(s, capacity, 5, ExprHead) && s.sh.running
    ensures Calm(s', capacity) && s'.sh == s.sh && s'.procs == s.procs[5 := s.procs[5].(pc := At(ExprWait))]
  {
    hide Path;
    var m := Move(s.sh, s.procs[5].(pc := At(ExprWait)));
    Go1(Init(capacity), s, 5, Go, m);
    s' := After(s, 5, m);
  }

  const PARCEL := Item(0, 1.0, VOL_A)

  /** The express process takes its order and loads a batch of three items. */
  lemma FulfilOrder(s: State, capacity: nat) returns (s': State)
    requires Reachable(s, capacity) && 5 in s.procs && s.procs[5].pc == At(ExprWait) && Queued(s.sh.queue, 5) == [ExpressLoad]
    requires s.sh.dockMutex == 1 && s.sh.dock == Ledger.Claim(Ledger.EMPTY_DOCK, 3, 200.0, 1.0)
    ensures Reachable(s', capacity) && s'.sh.dock == Ledger.LoadBatch(s.sh.dock, [PARCEL, PARCEL, PARCEL]).0
  {
    ReceiveExactly(s.sh, 5, s.procs[5], Go);
    var m1 := ProcStep(s.sh, 5, s.procs[5], Go).value;
    ThreeParcels(s.sh.dock.truck);
    Stay(s);
    hide Reachable, Path, BatchTaken, AddItems;
    Go1(s, s, 5, Go, m1);
    var s1, items := After(s, 5, m1), [PARCEL, PARCEL, PARCEL];
    var m := LoaderBody(s1.sh.(dockMutex := 0), m1.q.(pc := DoDock(Batch, s1.sh.dock)), Batch, s1.sh.dock, Items(items)).value;
    DockSection(s, s1, 5, Batch, Items(items), m, ExprHead);
    s' := After(s1, 5, Move(m.sh.(dockMutex := 1), m.q.(pc := At(ExprHead))));
    PathReaches(s, s', capacity);
  }

  lemma ThreeParcels(t: TruckState)
    requires t == Docked(3, 200.0, 1.0)
    ensures BatchTaken(t, [PARCEL, PARCEL, PARCEL]) == 3
  {
    var one := [PARCEL];
    assert one[1..] == [];
    assert Ledger.ItemWeight(one) == 1.0;
    assert Ledger.ItemVolume(one) == VOL_A;
    Ledger.WeightOfConcat(one, one);
    Ledger.VolumeOfConcat(one, one);
    Ledger.WeightOfConcat(one, one + one);
    Ledger.VolumeOfConcat(one, one + one);
    assert [PARCEL, PARCEL, PARCEL] == one + (one + one);
    Ledger.WholeBatch(t, [PARCEL, PARCEL, PARCEL]);
  }

  /** From the command to the truck: a run in which the operator's `vip` puts three items on board. */
  lemma VipDelivers(capacity: nat) returns (s: State)
    requires capacity > 0
    ensures Reachable(s, capacity) && s.sh.dock.truck.isPresent && s.sh.dock.batches == 1
    ensures s.sh.dock.cargo == [PARCEL, PARCEL, PARCEL] && s.sh.dock.truck.currentLoad == 0
  {
    var s0 := Staff(capacity);
    CalmReaches(s0, capacity);
    var n := VipReachesExpress(s0, capacity, 4, 5);
    var ls := [Act(4, VipCommand)] + Gos(4, n);
    assert Uninterrupted(ls);
    var s1 := Exec(s0, ls).value;
    assert Path(s0, s1);
    hide Reachable, Path, Exec, Ledger.Claim;
    PathReaches(s0, s1, capacity);
    s := FulfilOrder(s1, capacity);
    ThreeOnBoard();
  }

  lemma ThreeOnBoard()
    ensures var d := Ledger.LoadBatch(Ledger.Claim(Ledger.EMPTY_DOCK, 3, 200.0, 1.0), [PARCEL, PARCEL, PARCEL]).0;
      d.truck.isPresent && d.batches == 1 && d.cargo == [PARCEL, PARCEL, PARCEL] && d.truck.currentLoad == 0
  {
    var d, items := Ledger.Claim(Ledger.EMPTY_DOCK, 3, 200.0, 1.0), [PARCEL, PARCEL, PARCEL];
    ThreeParcels(d.truck);
    Ledger.AddItemsKeeps(d.truck, items[..3]);
    assert items[..3] == items && d.cargo + items == items;
  }
}
