/** Building runs with several processes: logging in, producing, fetching, docking and loading. */
module Runs {
  import opened Shared
  import opened Counting
  import opened SessionTable
  import opened Docking
  import BeltRing
  import Ledger
  import opened Protocol
  import opened Structure
  import opened Exclusion
  import opened Floor
  import opened Registry
  import opened Yard
  import opened Accounts
  import opened Rejection
  import opened Shutdown
  import opened Programs
  import opened Safety
  import opened Paths
  import SessionTheorems

  /** Process `pid` is at the point `pt`, in a state with both mutexes free that a run reaches. */
  ghost predicate Stands(s: State, capacity: nat, pid: int, pt: Point) {
    Calm(s, capacity) && pid in s.procs && s.procs[pid].pc == At(pt)
  }

  ghost predicate Calm(s: State, capacity: nat) {
    capacity > 0 && Path(Init(capacity), s) && s.sh.beltMutex == 1 && s.sh.dockMutex == 1
  }

  lemma CalmReaches(s: State, capacity: nat)
    requires Calm(s, capacity)
    ensures Reachable(s, capacity)
  {
    hide Path;
    assert Exec(Init(capacity), []) == Some(Init(capacity));
    PathReaches(Init(capacity), s, capacity);
  }

  lemma StartCalm(capacity: nat)
    requires capacity > 0
    ensures Calm(Init(capacity), capacity)
  {
    Stay(Init(capacity));
  }

  /** What the invariant says of a single process. */
  lemma Facts(s: State, capacity: nat, pid: int)
    requires Calm(s, capacity) && pid in s.procs
    ensures |s.sh.belt.ring.slots| == capacity && BeltRing.RingOk(s.sh.belt.ring)
    ensures Registered(s.procs[pid]) ==> s.sh.belt.workers >= 1
    ensures Entered(s.sh.belt.users, pid, s.procs[pid]) && |s.sh.belt.users| == MAX_USERS_SESSIONS
  {
    CalmReaches(s, capacity);
    hide Reachable, Calm, BeltRing.Window, BaseOk, YardOk, AccountsOk, RejectOk, StopOk, ProgramsOk, Entered, Stored;
    ReachableInv(s, capacity);
    if Registered(s.procs[pid]) {
      CountOne(s.procs, pid, Registered);
    }
  }

  /** Slots from `k` on are free. */
  predicate FreeFrom(users: Users, k: nat) {
    forall j :: k <= j < |users| ==> !users[j].active
  }

  lemma FirstFree(users: Users, i: nat, k: nat)
    requires i <= k < |users| && !users[k].active
    ensures FreeSlot(users, i).Some? && FreeSlot(users, i).value <= k
  {
  }

  lemma StoredApart(a: string, b: string)
    requires a != "" && b != "" && a[0] != b[0] && a[0] != '\0' && b[0] != '\0'
    ensures Stored(a) != Stored(b)
  {
    assert CString(a)[0] == a[0] && CString(b)[0] == b[0];
    assert Stored(a)[0] == a[0] && Stored(b)[0] == b[0];
  }

  function Joined(kind: Kind, name: string, role: RoleMask, slot: int): Proc {
    Proc(kind, name, role, Quota(kind), At(Entry(kind)), slot, [], {})
  }

  /** The quotas that the programs log in with (src/main_worker.cpp:30, src/main_truck.cpp:21). */
  function Quota(kind: Kind): int {
    if kind == Worker then 10 else 1
  }

  /** A new process is started, logs in and comes to the start of its program. */
  lemma JoinAt(s: State, capacity: nat, pid: int, kind: Kind, name: string, role: RoleMask, free: nat) returns (s': State, slot: nat)
    requires Calm(s, capacity) && pid > 0 && pid !in s.procs && NameFits(kind, name)
    requires free < |s.sh.belt.users| && !s.sh.belt.users[free].active
    requires forall p :: p in s.procs ==> Stored(s.procs[p].name) != Stored(name)
    ensures Calm(s', capacity) && slot <= free && s'.procs == s.procs[pid := Joined(kind, name, role, slot)]
    ensures s'.sh == s.sh.(belt := s.sh.belt.(users := s'.sh.belt.users)) && |s'.sh.belt.users| == |s.sh.belt.users|
    ensures forall j :: 0 <= j < |s.sh.belt.users| && j != slot ==> s'.sh.belt.users[j] == s.sh.belt.users[j]
  {
    hide Path, Stored, Init, Entry;
    var q := Proc(kind, name, role, Quota(kind), At(WantBelt(Login)), -1, [], {});
    var s2 := Enter(s, capacity, pid, q);
    slot := SlotFound(s2, capacity, pid, free);
    s' := FillSlot(Init(capacity), s2, pid, slot, q);
  }

  lemma Join(s: State, capacity: nat, pid: int, kind: Kind, name: string, role: RoleMask, k: nat) returns (s': State, slot: nat)
    requires Calm(s, capacity) && pid > 0 && pid !in s.procs && NameFits(kind, name)
    requires k < MAX_USERS_SESSIONS == |s.sh.belt.users| && FreeFrom(s.sh.belt.users, k)
    requires forall p :: p in s.procs ==> Stored(s.procs[p].name) != Stored(name)
    ensures Calm(s', capacity) && s'.procs == s.procs[pid := Joined(kind, name, role, slot)]
    ensures s'.sh == s.sh.(belt := s.sh.belt.(users := s'.sh.belt.users))
    ensures |s'.sh.belt.users| == MAX_USERS_SESSIONS && FreeFrom(s'.sh.belt.users, k + 1)
  {
    hide Calm, Stored, Entry;
    s', slot := JoinAt(s, capacity, pid, kind, name, role, k);
  }

  /** The process is started, locks the belt mutex and reads. */
  lemma Enter(s: State, capacity: nat, pid: int, q: Proc) returns (s': State)
    requires Calm(s, capacity) && pid > 0 && pid !in s.procs && NameFits(q.kind, q.name)
    requires q == Proc(q.kind, q.name, q.role, q.quota, At(WantBelt(Login)), -1, [], {})
    ensures Path(Init(capacity), s') && s'.sh == s.sh.(beltMutex := 0)
    ensures s'.procs == s.procs[pid := q.(pc := DoBelt(Login, s.sh.belt))]
  {
    hide Path, NameFits;
    var a, s0 := Init(capacity), s.(procs := s.procs[pid := q]);
    Onward(a, s, Fork(pid, q.kind, q.name, q.role, q.quota));
    var sh1 := s.sh.(beltMutex := 0);
    var m1, m2 := Move(sh1, q.(pc := InBelt(Login))), Move(sh1, q.(pc := DoBelt(Login, s.sh.belt)));
    Go1(a, s0, pid, Go, m1);
    Go1(a, After(s0, pid, m1), pid, Go, m2);
    AfterAfter(s0, pid, m1, m2);
    s' := After(s0, pid, m2);
  }

  lemma SlotFound(s: State, capacity: nat, pid: int, k: nat) returns (slot: nat)
    requires capacity > 0 && Path(Init(capacity), s) && pid in s.procs && s.procs[pid].pc == DoBelt(Login, s.sh.belt)
    requires k < |s.sh.belt.users| && !s.sh.belt.users[k].active
    requires forall p :: p in s.procs && p != pid ==> Stored(s.procs[p].name) != Stored(s.procs[pid].name)
    ensures LoginSlot(s.sh.belt.users, s.procs[pid].name) == Some(slot) && slot <= k
  {
    hide Path, Stored, ProcStep, Exec;
    hide Reachable;
    InitReaches(capacity);
    PathReaches(Init(capacity), s, capacity);
    NotLoggedIn(s, capacity, pid);
    SessionTheorems.LoginFailsExactlyWhen(s, capacity, pid, Go);
    SessionTheorems.LoginStep(s.sh, pid, s.procs[pid], Go);
    FirstFree(s.sh.belt.users, 0, k);
    slot := LoginSlot(s.sh.belt.users, s.procs[pid].name).value;
  }

  lemma InitReaches(capacity: nat)
    requires capacity > 0
    ensures Reachable(Init(capacity), capacity)
  {
    assert Exec(Init(capacity), []) == Some(Init(capacity));
  }

  lemma NotLoggedIn(s: State, capacity: nat, pid: int)
    requires Reachable(s, capacity) && pid in s.procs && s.procs[pid].pc.DoBelt? && s.procs[pid].pc.bop.Login?
    ensures s.procs[pid].slot == -1
  {
    hide Reachable, FloorOk, RegistryOk, YardOk, AccountsOk, RejectOk, StopOk, ProgramsOk;
    ReachableInv(s, capacity);
    assert ProcOk(s.procs[pid]);
  }

  /** The writes of a login and its unlock. */
  lemma FillSlot(a: State, s: State, pid: int, i: nat, q: Proc) returns (s': State)
    requires Path(a, s) && pid in s.procs && s.procs[pid] == q.(pc := DoBelt(Login, s.sh.belt))
    requires LoginSlot(s.sh.belt.users, q.name) == Some(i)
    ensures Path(a, s') && s'.procs == s.procs[pid := q.(pc := At(Entry(q.kind)), slot := i)]
    ensures s'.sh == s.sh.(beltMutex := s.sh.beltMutex + 1, belt := s.sh.belt.(users := s'.sh.belt.users))
    ensures |s'.sh.belt.users| == |s.sh.belt.users|
    ensures forall j :: 0 <= j < |s.sh.belt.users| && j != i ==> s'.sh.belt.users[j] == s.sh.belt.users[j]
  {
    hide Path, Stored, LoginSlot;
    var m := SessionBody(s.sh, pid, s.procs[pid], Login, s.sh.belt.users).value;
    var m1 := LoginStage(m.sh, pid, m.q).value;
    var m2 := LoginStage(m1.sh, pid, m1.q).value;
    var m3 := LoginStage(m2.sh, pid, m2.q).value;
    var m4 := Move(m3.sh.(beltMutex := m3.sh.beltMutex + 1), m3.q.(pc := At(Entry(q.kind))));
    Go1(a, s, pid, Go, m);
    Go1(a, After(s, pid, m), pid, Go, m1);
    AfterAfter(s, pid, m, m1);
    Go1(a, After(s, pid, m1), pid, Go, m2);
    AfterAfter(s, pid, m1, m2);
    Go1(a, After(s, pid, m2), pid, Go, m3);
    AfterAfter(s, pid, m2, m3);
    Go1(a, After(s, pid, m3), pid, Go, m4);
    AfterAfter(s, pid, m3, m4);
    s' := After(s, pid, m4);
  }

  /** The worker registers. */
  lemma SignUp(s: State, capacity: nat, pid: int) returns (s': State)
    requires Stands(s, capacity, pid, WantBelt(Register)) && s.sh.belt.workers == 0
    ensures Calm(s', capacity) && s'.procs == s.procs[pid := s.procs[pid].(pc := At(WorkHead))]
    ensures s'.sh == s.sh.(belt := s.sh.belt.(workers := 1))
  {
    hide Path;
    var q := s.procs[pid];
    var m := FloorBody(s.sh.(beltMutex := 0), q.(pc := DoBelt(Register, s.sh.belt)), Register, s.sh.belt).value;
    Section(Init(capacity), s, pid, Register, m, WorkHead);
    s' := After(s, pid, Move(m.sh.(beltMutex := 1), m.q.(pc := At(WorkHead))));
  }

  /** `trySpawnProcess` grants the worker its sub-process. */
  lemma Begin(s: State, capacity: nat, pid: int) returns (s': State)
    requires Stands(s, capacity, pid, WorkHead) && s.sh.running && s.procs[pid].slot >= 0 && s.procs[pid].quota >= 1
    ensures Calm(s', capacity) && s'.procs == s.procs[pid := s.procs[pid].(pc := At(Make))]
    ensures s'.sh == s.sh.(belt := s.sh.belt.(users := s'.sh.belt.users))
  {
    Facts(s, capacity, pid);
    hide Path, Stored;
    var a, q := Init(capacity), s.procs[pid].(pc := At(WantBelt(Spawn)));
    var m0 := Move(s.sh, q);
    Go1(a, s, pid, Go, m0);
    var m := SessionBody(s.sh.(beltMutex := 0), pid, q.(pc := DoBelt(Spawn, s.sh.belt)), Spawn, s.sh.belt.users).value;
    Section(a, After(s, pid, m0), pid, Spawn, m, Make);
    var m' := Move(m.sh.(beltMutex := 1), m.q.(pc := At(Make)));
    AfterAfter(s, pid, m0, m');
    s' := After(s, pid, m');
  }

  /** It makes the package `p` and comes to the empty-slots semaphore. */
  lemma MakePackage(s: State, capacity: nat, pid: int, p: Package) returns (s': State)
    requires Stands(s, capacity, pid, Make) && WorkerMade(p)
    ensures Calm(s', capacity) && s'.sh == s.sh
    ensures s'.procs == s.procs[pid := s.procs[pid].(pc := At(WaitEmpty), pkg := [p])]
  {
    Facts(s, capacity, pid);
    hide Path, WorkerMade;
    var a, q := Init(capacity), s.procs[pid].(pkg := [p]);
    var m1, m2, m3 := Move(s.sh, q.(pc := At(LoadTest))), Move(s.sh, q.(pc := At(LoadDivide))), Move(s.sh, q.(pc := At(WaitEmpty)));
    Go1(a, s, pid, Choice.Pack(p), m1);
    Go1(a, After(s, pid, m1), pid, Go, m2);
    AfterAfter(s, pid, m1, m2);
    Go1(a, After(s, pid, m2), pid, Go, m3);
    AfterAfter(s, pid, m2, m3);
    s' := After(s, pid, m3);
  }

  /** It takes a token and pushes the package. */
  lemma Put(s: State, capacity: nat, pid: int, p: Package) returns (s': State)
    requires Stands(s, capacity, pid, WaitEmpty) && s.procs[pid].pkg == [p] && s.sh.empty >= 1 && s.sh.belt.ring.count < capacity
    ensures BeltRing.RingOk(s.sh.belt.ring) && |s.sh.belt.ring.slots| == capacity
    ensures Calm(s', capacity) && s'.procs == s.procs[pid := s.procs[pid].(pc := At(PutFull), pkg := [])]
    ensures s'.sh == s.sh.(empty := s.sh.empty - 1, log := s'.sh.log,
                           belt := s.sh.belt.(ring := BeltRing.Push(s.sh.belt.ring, p).0))
  {
    Facts(s, capacity, pid);
    hide Path, BeltRing.Window;
    var a, sh0, q := Init(capacity), s.sh.(empty := s.sh.empty - 1), s.procs[pid].(pc := At(WantBelt(Push)));
    var m0 := Move(sh0, q);
    Go1(a, s, pid, Go, m0);
    var m := FloorBody(sh0.(beltMutex := 0), q.(pc := DoBelt(Push, s.sh.belt)), Push, s.sh.belt).value;
    Section(a, After(s, pid, m0), pid, Push, m, PutFull);
    var m' := Move(m.sh.(beltMutex := 1), m.q.(pc := At(PutFull)));
    AfterAfter(s, pid, m0, m');
    s' := After(s, pid, m');
  }

  /** It signals the package and reports its sub-process finished. */
  lemma End(s: State, capacity: nat, pid: int) returns (s': State)
    requires Stands(s, capacity, pid, PutFull)
    ensures Calm(s', capacity) && s'.procs == s.procs[pid := s.procs[pid].(pc := At(WorkHead))]
    ensures s'.sh == s.sh.(full := s.sh.full + 1, belt := s.sh.belt.(users := s'.sh.belt.users))
  {
    hide Path;
    var a, sh0, q := Init(capacity), s.sh.(full := s.sh.full + 1), s.procs[pid].(pc := At(WantBelt(Finish)));
    var m0 := Move(sh0, q);
    Go1(a, s, pid, Go, m0);
    var m := SessionBody(sh0.(beltMutex := 0), pid, q.(pc := DoBelt(Finish, s.sh.belt)), Finish, s.sh.belt.users).value;
    Section(a, After(s, pid, m0), pid, Finish, m, WorkHead);
    var m' := Move(m.sh.(beltMutex := 1), m.q.(pc := At(WorkHead)));
    AfterAfter(s, pid, m0, m');
    s' := After(s, pid, m');
  }

  /** A worker that can produce. */
  ghost predicate Working(s: State, capacity: nat, pid: int) {
    Stands(s, capacity, pid, WorkHead) && s.procs[pid].slot >= 0 && s.procs[pid].quota >= 1 && s.procs[pid].pkg == []
  }

  /** One round of the worker's loop: the belt has the package `p` more, all else is as before. */
  lemma Produce(s: State, capacity: nat, pid: int, p: Package) returns (s': State)
    requires Working(s, capacity, pid) && s.sh.running && WorkerMade(p) && s.sh.empty >= 1 && s.sh.belt.ring.count < capacity
    ensures BeltRing.RingOk(s.sh.belt.ring) && |s.sh.belt.ring.slots| == capacity
    ensures s'.procs == s.procs && Working(s', capacity, pid)
    ensures s'.sh.belt.ring == BeltRing.Push(s.sh.belt.ring, p).0
    ensures s'.sh == s.sh.(empty := s.sh.empty - 1, full := s.sh.full + 1, belt := s'.sh.belt, log := s'.sh.log)
  {
    hide Calm, WorkerMade, BeltRing.RingOk, BeltRing.Push;
    s' := Begin(s, capacity, pid);
    s' := MakePackage(s', capacity, pid, p);
    s' := Put(s', capacity, pid, p);
    s' := End(s', capacity, pid);
    assert s'.procs == s.procs;
  }

  /** The dispatcher finds the system running and comes to the full-slots semaphore. */
  lemma AwaitPackage(s: State, capacity: nat, pid: int) returns (s': State)
    requires Stands(s, capacity, pid, DispHead) && s.sh.running
    ensures Calm(s', capacity) && s'.sh == s.sh && s'.procs == s.procs[pid := s.procs[pid].(pc := At(WaitFull))]
  {
    hide Path;
    var m := Move(s.sh, s.procs[pid].(pc := At(WaitFull)));
    Go1(Init(capacity), s, pid, Go, m);
    s' := After(s, pid, m);
  }

  /** The dispatcher takes the oldest package off the belt. */
  lemma Fetch(s: State, capacity: nat, pid: int, p: Package) returns (s': State)
    requires Stands(s, capacity, pid, DispHead) && s.sh.running && s.sh.full >= 1
    requires BeltRing.RingOk(s.sh.belt.ring) && s.sh.belt.ring.count > 0 && BeltRing.Pop(s.sh.belt.ring).1 == p
    ensures Calm(s', capacity) && s'.procs == s.procs[pid := s.procs[pid].(pc := At(DispRetry), pkg := [p], rejects := {})]
    ensures s'.sh == s.sh.(empty := s.sh.empty + 1, full := s.sh.full - 1, log := s'.sh.log,
                           belt := s.sh.belt.(ring := BeltRing.Pop(s.sh.belt.ring).0))
  {
    hide Path, BeltRing.Window;
    var a, q := Init(capacity), s.procs[pid];
    var m0 := Move(s.sh, q.(pc := At(WaitFull)));
    var m1 := Move(s.sh.(full := s.sh.full - 1), q.(pc := At(WantBelt(Pop))));
    Go1(a, s, pid, Go, m0);
    Go1(a, After(s, pid, m0), pid, Go, m1);
    AfterAfter(s, pid, m0, m1);
    var m := FloorBody(m1.sh.(beltMutex := 0), m1.q.(pc := DoBelt(Pop, s.sh.belt)), Pop, s.sh.belt).value;
    Section(a, After(s, pid, m1), pid, Pop, m, FreeEmpty);
    var m2 := Move(m.sh.(beltMutex := 1), m.q.(pc := At(FreeEmpty)));
    AfterAfter(s, pid, m1, m2);
    var m3 := Move(m2.sh.(empty := m2.sh.empty + 1), m2.q.(pc := At(DispRetry)));
    Go1(a, After(s, pid, m2), pid, Go, m3);
    AfterAfter(s, pid, m2, m3);
    s' := After(s, pid, m3);
  }

  /** It loads the package, which fits; if the truck is full then, it is told to leave. */
  lemma LoadOn(s: State, capacity: nat, pid: int, p: Package) returns (s': State)
    requires Stands(s, capacity, pid, DispRetry) && s.sh.running && s.procs[pid].pkg == [p]
    requires Ledger.LoadPackage(s.sh.dock, p).1.Loaded?
    ensures Calm(s', capacity) && s'.procs == s.procs[pid := s.procs[pid].(pc := At(DispHead), pkg := [])]
    ensures s'.sh == s.sh.(dock := Ledger.LoadPackage(s.sh.dock, p).0, queue := s'.sh.queue, log := s'.sh.log)
    ensures s'.sh.queue ==
      if Ledger.LoadPackage(s.sh.dock, p).1.full then Send(s.sh.queue, s.sh.dock.truck.id, Departure) else s.sh.queue
  {
    hide Path, Ledger.LoadPackage, Send;
    var a, q := Init(capacity), s.procs[pid].(pc := At(WantDock(Load)));
    var m0 := Move(s.sh, q);
    Go1(a, s, pid, Go, m0);
    var s0 := After(s, pid, m0);
    var m := LoaderBody(s.sh.(dockMutex := 0), q.(pc := DoDock(Load, s.sh.dock)), Load, s.sh.dock, Go).value;
    var m' := Move(m.sh.(dockMutex := 1), m.q.(pc := At(DispHead)));
    if Ledger.LoadPackage(s.sh.dock, p).1.full {
      SendingSection(a, s0, pid, Load, Go, m, s.sh.dock.truck.id, DispHead);
      m' := m'.(sh := m'.sh.(queue := Send(s.sh.queue, s.sh.dock.truck.id, Departure)));
    } else {
      DockSection(a, s0, pid, Load, Go, m, DispHead);
    }
    AfterAfter(s, pid, m0, m');
    s' := After(s, pid, m');
  }

  /** The truck refuses the package and is told to leave. */
  lemma Refuse(s: State, capacity: nat, pid: int, p: Package) returns (s': State)
    requires Stands(s, capacity, pid, DispRetry) && s.sh.running && s.procs[pid].pkg == [p]
    requires Ledger.LoadPackage(s.sh.dock, p).1.Rejected?
    ensures Calm(s', capacity)
    ensures s'.procs == s.procs[pid := s.procs[pid].(rejects := s.procs[pid].rejects + {s.sh.dock.dockings})]
    ensures s'.sh == s.sh.(dock := s.sh.dock.(called := true), queue := Send(s.sh.queue, s.sh.dock.truck.id, Departure))
  {
    hide Path, Send, TryLoad;
    var a, q := Init(capacity), s.procs[pid].(pc := At(WantDock(Load)));
    var m0 := Move(s.sh, q);
    Go1(a, s, pid, Go, m0);
    var s0 := After(s, pid, m0);
    var m := LoaderBody(s.sh.(dockMutex := 0), q.(pc := DoDock(Load, s.sh.dock)), Load, s.sh.dock, Go).value;
    SendingSection(a, s0, pid, Load, Go, m, s.sh.dock.truck.id, DispRetry);
    var m' := Move(m.sh.(dockMutex := 1, queue := Send(s.sh.queue, s.sh.dock.truck.id, Departure)), m.q.(pc := At(DispRetry)));
    AfterAfter(s, pid, m0, m');
    s' := After(s, pid, m');
  }

  /** The truck docks. */
  lemma DockAt(s: State, capacity: nat, pid: int, maxWeight: real, maxVolume: real) returns (s': State)
    requires Stands(s, capacity, pid, TruckHead) && s.sh.running && !s.sh.dock.truck.isPresent && SpecsInRange(maxWeight, maxVolume)
    ensures Calm(s', capacity) && s'.procs == s.procs[pid := s.procs[pid].(pc := At(TruckWait))]
    ensures s'.sh == s.sh.(dock := Ledger.Claim(s.sh.dock, pid, maxWeight, maxVolume))
  {
    hide Path, SpecsInRange, Ledger.Claim;
    var a, q, c := Init(capacity), s.procs[pid].(pc := At(WantDock(Claim))), Specs(maxWeight, maxVolume);
    var m0 := Move(s.sh, q);
    Go1(a, s, pid, Go, m0);
    var m := TruckBody(s.sh.(dockMutex := 0), pid, q.(pc := DoDock(Claim, s.sh.dock)), Claim, s.sh.dock, c).value;
    DockSection(a, After(s, pid, m0), pid, Claim, c, m, TruckWait);
    var m' := Move(m.sh.(dockMutex := 1), m.q.(pc := At(TruckWait)));
    AfterAfter(s, pid, m0, m');
    s' := After(s, pid, m');
  }

  /** With at most one process logged in, one of the first two slots is free. */
  lemma RoomForTwo(s: State, capacity: nat, p: int) returns (free: nat)
    requires Calm(s, capacity) && s.procs.Keys == {p}
    ensures free < |s.sh.belt.users| && !s.sh.belt.users[free].active
  {
    Facts(s, capacity, p);
    CalmReaches(s, capacity);
    hide Reachable, Entered;
    SessionTheorems.TableMatchesProcesses(s, capacity, 0, 1);
    SessionTheorems.TableMatchesProcesses(s, capacity, 1, 0);
    free := if s.sh.belt.users[0].active then 1 else 0;
  }

  /** Process 4, a terminal whose user is an administrator, is at the head of its loop. */
  ghost predicate AdminReady(s: State, capacity: nat) {
    Stands(s, capacity, 4, TermHead) && s.procs[4].slot >= 0 && SysAdmin in s.procs[4].role && s.sh.running
  }

  lemma Stop(s: State, capacity: nat) returns (s': State)
    requires AdminReady(s, capacity)
    ensures Calm(s', capacity) && s'.sh == s.sh.(running := false) && s.sh.log.swept == 0
    ensures s'.procs == s.procs[4 := s.procs[4].(pc := At(StopScan(0)))]
  {
    NotSwept(s, capacity);
    var s0 := AtPrompt(s, capacity);
    Facts(s0, capacity, 4);
    hide Path, Stored;
    assert SysAdmin in User(s0.sh.belt.users, s0.procs[4].slot).role * {SysAdmin};
    var m := Move(s0.sh.(running := false), s0.procs[4].(pc := At(StopScan(0))));
    Go1(Init(capacity), s0, 4, StopCommand, m);
    s' := After(s0, 4, m);
  }

  /** The terminal finds the system running and comes to its prompt. */
  lemma AtPrompt(s: State, capacity: nat) returns (s': State)
    requires Stands(s, capacity, 4, TermHead) && s.sh.running
    ensures Calm(s', capacity) && s'.sh == s.sh && s'.procs == s.procs[4 := s.procs[4].(pc := At(TermIdle))]
  {
    hide Path;
    var m := Move(s.sh, s.procs[4].(pc := At(TermIdle)));
    Go1(Init(capacity), s, 4, Go, m);
    s' := After(s, 4, m);
  }

  lemma NotSwept(s: State, capacity: nat)
    requires Calm(s, capacity) && s.sh.running
    ensures s.sh.log.swept == 0
  {
    CalmReaches(s, capacity);
    hide Reachable, BaseOk, FloorOk, RegistryOk, YardOk, AccountsOk, RejectOk, ProgramsOk;
    ReachableInv(s, capacity);
  }

  /** A stop scan runs from slot `i` to the end of the table. */
  lemma {:induction false} Scan(s: State, capacity: nat, i: nat) returns (s': State)
    requires Stands(s, capacity, 4, StopScan(i)) && i <= |s.sh.belt.users| && s.sh.log.swept == i
    ensures Calm(s', capacity) && s'.procs == s.procs[4 := s.procs[4].(pc := At(StopScan(|s.sh.belt.users|)))]
    ensures s'.sh == s.sh.(queue := s'.sh.queue, log := s.sh.log.(swept := |s.sh.belt.users|))
    decreases |s.sh.belt.users| - i
  {
    if i == |s.sh.belt.users| {
      s' := s;
      assert s.procs == s.procs[4 := s.procs[4].(pc := At(StopScan(i)))];
    } else {
      hide Calm;
      var s1 := ScanSlot(s, capacity, i);
      s' := Scan(s1, capacity, i + 1);
      assert s'.procs == s.procs[4 := s.procs[4].(pc := At(StopScan(|s.sh.belt.users|)))];
    }
  }

  lemma ScanSlot(s: State, capacity: nat, i: nat) returns (s': State)
    requires Stands(s, capacity, 4, StopScan(i)) && i < |s.sh.belt.users| && s.sh.log.swept == i
    ensures Calm(s', capacity) && s'.procs == s.procs[4 := s.procs[4].(pc := At(StopScan(i + 1)))]
    ensures s'.sh == s.sh.(queue := s'.sh.queue, log := s.sh.log.(swept := i + 1))
  {
    hide Path;
    if s.sh.belt.users[i].active {
      s' := TellSlot(s, capacity, i);
    } else {
      var m := Move(s.sh.(log := s.sh.log.(swept := i + 1)), s.procs[4].(pc := At(StopScan(i + 1))));
      Go1(Init(capacity), s, 4, Go, m);
      s' := After(s, 4, m);
    }
  }

  lemma TellSlot(s: State, capacity: nat, i: nat) returns (s': State)
    requires Stands(s, capacity, 4, StopScan(i)) && i < |s.sh.belt.users| && s.sh.log.swept == i && s.sh.belt.users[i].active
    ensures Calm(s', capacity) && s'.procs == s.procs[4 := s.procs[4].(pc := At(StopScan(i + 1)))]
    ensures s'.sh == s.sh.(queue := s'.sh.queue, log := s.sh.log.(swept := i + 1))
  {
    hide Path, Send;
    var a, q, to := Init(capacity), s.procs[4], s.sh.belt.users[i].sessionPid;
    var m1, m2 := Move(s.sh, q.(pc := At(StopPid(i)))), Move(s.sh, q.(pc := At(StopSend(i, to))));
    var m := Move(s.sh.(queue := Send(s.sh.queue, to, EndWork), log := s.sh.log.(swept := i + 1)), q.(pc := At(StopScan(i + 1))));
    Go1(a, s, 4, Go, m1);
    Go1(a, After(s, 4, m1), 4, Go, m2);
    AfterAfter(s, 4, m1, m2);
    Go1(a, After(s, 4, m2), 4, Go, m);
    AfterAfter(s, 4, m2, m);
    s' := After(s, 4, m);
  }

  /** The terminal logs out after its scan. */
  lemma LogOut(s: State, capacity: nat) returns (s': State)
    requires Stands(s, capacity, 4, StopScan(|s.sh.belt.users|))
    ensures Calm(s', capacity) && s'.procs == s.procs[4 := s.procs[4].(pc := At(Exited), slot := -1)]
    ensures s'.sh == s.sh.(belt := s.sh.belt.(users := s'.sh.belt.users))
  {
    hide Path;
    var a, q := Init(capacity), s.procs[4].(pc := At(WantBelt(Logout)));
    var m0 := Move(s.sh, q);
    Go1(a, s, 4, Go, m0);
    var m := SessionBody(s.sh.(beltMutex := 0), 4, q.(pc := DoBelt(Logout, s.sh.belt)), Logout, s.sh.belt.users).value;
    Section(a, After(s, 4, m0), 4, Logout, m, Exited);
    var m' := Move(m.sh.(beltMutex := 1), m.q.(pc := At(Exited)));
    AfterAfter(s, 4, m0, m');
    s' := After(s, 4, m');
  }

  /** The whole stop command, from the prompt to the end of the terminal. */
  lemma StopAll(s: State, capacity: nat) returns (s': State)
    requires AdminReady(s, capacity)
    ensures Calm(s', capacity) && s'.procs == s.procs[4 := s.procs[4].(pc := At(Exited), slot := -1)]
    ensures !s'.sh.running && s'.sh.log == s.sh.log.(swept := MAX_USERS_SESSIONS)
    ensures s'.sh.empty == s.sh.empty && s'.sh.full == s.sh.full && s'.sh.belt.ring == s.sh.belt.ring
  {
    Facts(s, capacity, 4);
    hide Calm, Entered, BeltRing.RingOk;
    s' := Stop(s, capacity);
    s' := Scan(s', capacity, 0);
    s' := LogOut(s', capacity);
    assert s'.procs == s.procs[4 := s.procs[4].(pc := At(Exited), slot := -1)];
  }
}
