/** The warehouse as a transition system. The shared segment, the four semaphores, the message
    queues and the program counter of every process form one state; each lock, unlock, wait,
    signal, send, receive and unlocked read is a step of its own.

    A critical section has two steps after the lock: it reads the data that its mutex protects
    into a private copy and later writes back what it computed from that copy. Without mutual
    exclusion an update would be lost, so exclusion is a theorem the other proofs rest on. */
module Protocol {
  import opened Shared
  import opened SessionTable
  import BeltRing
  import Docking
  import Ledger

  datatype Kind = Worker | Truck | Dispatcher | Express | Terminal | Monitor

  datatype BeltOp = Login | Logout | Register | Unregister | Spawn | Finish | Push | Pop

  datatype DockOp = Claim | Shutdown | Depart | Cleanup | Load | Batch

  /** The data guarded by the belt mutex. */
  datatype Belt = Belt(ring: BeltRing.Ring, workers: int, users: Users)

  /** The places in a program between two critical sections, and the critical sections it can
      be about to enter or be in. */
  datatype Point =
    | WantBelt(bop: BeltOp) | WantDock(dop: DockOp)
    // counting semaphores: the waits, then the signals of a producer and of the consumer
    | WaitEmpty | WaitFull | PutFull | PutBackEmpty | FreeEmpty | GiveBackFull
    // worker (include/Worker.h:99-131, include/Belt.h:64-75)
    | WorkHead | Make | LoadTest | LoadDivide
    // truck (include/Truck.h:118-136)
    | TruckHead | TruckWait | TruckGot(sig: Signal)
    // dispatcher (include/Dispatcher.h:97, 158)
    | DispHead | DispRetry
    // express (src/main_express.cpp:42-59)
    | ExprHead | ExprWait
    // terminal (src/main_terminal.cpp:58, include/terminal/TerminalAction.h:80-165)
    | TermHead | TermIdle | DepartId | DepartSend(to: int)
    | StopScan(i: nat) | StopPid(i: nat) | StopSend(i: nat, to: int)
    | VipScan(i: nat) | VipPid(i: nat) | VipSend(to: int)
    // belt monitor (src/main_belt.cpp:51)
    | MonHead
    | Exited | Crashed

  /** Program counters. `In` has just locked, `Do` has read the guarded data and is about to
      write; `login` writes its slot in four steps; `SendDock` is about to send a departure. */
  datatype PC =
    | At(point: Point)
    | InBelt(bop: BeltOp) | DoBelt(bop: BeltOp, seenBelt: Belt)
    | LoginMark(i: nat) | LoginName(i: nat) | LoginPid(i: nat)
    | UnlockBelt(next: Point)
    | InDock(dop: DockOp) | DoDock(dop: DockOp, seenDock: Ledger.Dock)
    | SendDock(to: int, next: Point) | UnlockDock(next: Point)

  /** A process: its credentials, its program counter, `current_session`, the local package
      variable, and the dockings that have rejected that package. */
  datatype Proc = Proc(
    kind: Kind, name: string, role: RoleMask, quota: int,
    pc: PC, slot: int, pkg: seq<Package>, rejects: set<nat>)

  /** History: all packages ever pushed and popped, in order; packages the dispatcher gave up;
      the package it holds; the interrupted waits; and how many slots a stop scan has passed. */
  datatype Log = Log(
    pushed: seq<Package>, popped: seq<Package>, dropped: seq<Package>, hand: seq<Package>,
    emptyInterrupts: nat, fullInterrupts: nat, swept: nat)

  /** Everything that processes share: memory segment, semaphores and message queues. */
  datatype Memory = Memory(
    belt: Belt, dock: Ledger.Dock, beltMutex: nat, dockMutex: nat, empty: nat, full: nat,
    running: bool, queue: map<int, seq<Signal>>, log: Log)

  datatype State = State(sh: Memory, procs: map<int, Proc>)

  /** What one step of a process leaves behind. */
  datatype Move = Move(sh: Memory, q: Proc)

  /** Nondeterminism: scheduling of interrupts, operator commands and random draws. */
  datatype Choice =
    | Go | Interrupt | Quit | VipCommand | DepartCommand | StopCommand
    | Pack(p: Package) | Specs(maxWeight: real, maxVolume: real) | Items(items: seq<Docking.Item>)

  datatype Label =
    | Act(pid: int, choice: Choice)
    | Fork(pid: int, kind: Kind, name: string, role: RoleMask, quota: int)
    | Halt

  const DISPATCHER_NAME := "System-Dispatcher"
  const EXPRESS_NAME := "System-Express"
  const TERMINAL_NAME := "AdminConsole"

  /** What the owner's constructor sets up (include/Manager.h:127-138), for a belt of K slots. */
  function Init(capacity: nat): State {
    State(Memory(Belt(BeltRing.EmptyRing(capacity), 0, seq(MAX_USERS_SESSIONS, _ => ZERO_SESSION)),
                 Ledger.EMPTY_DOCK, 1, 1, capacity, 0, true, map[], Log([], [], [], [], 0, 0, 0)),
          map[])
  }

  function Queued(queue: map<int, seq<Signal>>, pid: int): seq<Signal> {
    if pid in queue then queue[pid] else []
  }

  /** `sendSignal`: a message type must be positive, otherwise `msgsnd` fails and nothing is sent. */
  function Send(queue: map<int, seq<Signal>>, to: int, sig: Signal): map<int, seq<Signal>> {
    if to > 0 then queue[to := Queued(queue, to) + [sig]] else queue
  }

  /** Where a process goes after a successful login (the `main_*.cpp` files). */
  function Entry(kind: Kind): Point {
    match kind
    case Worker => WantBelt(Register)
    case Truck => TruckHead
    case Dispatcher => DispHead
    case Express => ExprHead
    case Terminal => TermHead
    case Monitor => MonHead
  }

  /** Session names that the programs fix; workers and trucks choose theirs freely. */
  predicate NameFits(kind: Kind, name: string) {
    && (kind == Dispatcher ==> name == DISPATCHER_NAME)
    && (kind == Express ==> name == EXPRESS_NAME)
    && (kind == Terminal ==> name == TERMINAL_NAME)
  }

  function User(users: Users, i: int): UserSession {
    if 0 <= i < |users| then users[i] else ZERO_SESSION
  }

  function SetUser(users: Users, i: int, u: UserSession): (r: Users)
    ensures |r| == |users|
  {
    if 0 <= i < |users| then users[i := u] else users
  }

  function SetUsers(s: Memory, users: Users): Memory {
    s.(belt := s.belt.(users := users))
  }

  predicate SessionOp(op: BeltOp) {
    op.Login? || op.Logout? || op.Spawn? || op.Finish?
  }

  /** The write of `login` (its first part), `logout`, `trySpawnProcess` and
      `reportProcessFinished`, computed from the copy `users`. */
  function SessionBody(s: Memory, pid: int, q: Proc, op: BeltOp, users: Users): Option<Move> {
    match op
    case Login =>
      (match LoginSlot(users, q.name)
       case None => Some(Move(s, q.(pc := UnlockBelt(Exited))))
       case Some(i) => Some(Move(SetUsers(s, SetUser(users, i, ZERO_SESSION)), q.(pc := LoginMark(i)))))
    case Logout =>
      Some(Move(SetUsers(s, SetUser(users, q.slot, LogoutEntry(User(users, q.slot)))),
                q.(pc := UnlockBelt(Exited), slot := -1)))
    case Spawn =>
      var (u, ok) := SpawnEntry(User(users, q.slot));
      Some(Move(SetUsers(s, SetUser(users, q.slot, u)), q.(pc := UnlockBelt(if ok then Make else WorkHead))))
    case Finish =>
      Some(Move(SetUsers(s, SetUser(users, q.slot, FinishEntry(User(users, q.slot)))), q.(pc := UnlockBelt(WorkHead))))
    case _ => None
  }

  /** The rest of `login`: three writes to the slot it took (include/SessionManager.h:93-103). */
  function LoginStage(s: Memory, pid: int, q: Proc): Option<Move> {
    match q.pc
    case LoginMark(i) =>
      Some(Move(SetUsers(s, SetUser(s.belt.users, i, User(s.belt.users, i).(active := true))),
                q.(pc := LoginName(i))))
    case LoginName(i) =>
      Some(Move(SetUsers(s, SetUser(s.belt.users, i, User(s.belt.users, i).(
                                      username := Stored(q.name), role := q.role,
                                      maxProcesses := q.quota, currentProcesses := 0))),
                q.(pc := LoginPid(i))))
    case LoginPid(i) =>
      Some(Move(SetUsers(s, SetUser(s.belt.users, i, User(s.belt.users, i).(sessionPid := pid))),
                q.(pc := UnlockBelt(Entry(q.kind)), slot := i)))
    case _ => None
  }

  /** The write of `registerWorker`, `unregisterWorker`, `push` and `pop`, computed from the copy `v`. */
  function FloorBody(s: Memory, q: Proc, op: BeltOp, v: Belt): Option<Move> {
    match op
    case Register =>
      var (workers, ok) := BeltRing.Enroll(v.workers);
      Some(Move(s.(belt := s.belt.(workers := workers)), q.(pc := UnlockBelt(if ok then WorkHead else WantBelt(Logout)))))
    case Unregister =>
      Some(Move(s.(belt := s.belt.(workers := BeltRing.Dismiss(v.workers))),
                q.(pc := UnlockBelt(WantBelt(Logout)))))
    case Push =>
      if |q.pkg| != 1 || !(0 <= v.ring.tail < |v.ring.slots|) then None else
      var (ring, ok) := BeltRing.Push(v.ring, q.pkg[0]);
      if ok
      then Some(Move(s.(belt := s.belt.(ring := ring),
                        log := s.log.(pushed := s.log.pushed + [q.pkg[0].(id := ring.total)])),
                     q.(pc := UnlockBelt(PutFull), pkg := [])))
      else Some(Move(s, q.(pc := UnlockBelt(PutBackEmpty), pkg := [])))
    case Pop =>
      if !(0 <= v.ring.head < |v.ring.slots|) then None else
      var (ring, p) := BeltRing.Pop(v.ring);
      if v.ring.count <= 0
      then Some(Move(s, q.(pc := UnlockBelt(GiveBackFull))))
      else Some(Move(s.(belt := s.belt.(ring := ring),
                        log := s.log.(popped := s.log.popped + [p], hand := s.log.hand + [p])),
                     q.(pc := UnlockBelt(FreeEmpty), pkg := [p], rejects := {})))
    case _ => None
  }

  /** The write of a truck's dock critical section, computed from the copy `d`. */
  function TruckBody(s: Memory, pid: int, q: Proc, op: DockOp, d: Ledger.Dock, c: Choice): Option<Move> {
    match op
    case Claim =>
      if d.truck.isPresent then Some(Move(s, q.(pc := UnlockDock(TruckHead))))
      else if c.Specs? && Docking.SpecsInRange(c.maxWeight, c.maxVolume)
      then Some(Move(s.(dock := Ledger.Claim(d, pid, c.maxWeight, c.maxVolume)), q.(pc := UnlockDock(TruckWait))))
      else None
    case Shutdown =>
      Some(Move(s.(dock := Ledger.Shutdown(d, pid)), q.(pc := UnlockDock(WantDock(Cleanup)))))
    case Depart =>
      Some(Move(s.(dock := Ledger.Depart(d, pid)), q.(pc := UnlockDock(TruckHead))))
    case Cleanup =>
      Some(Move(s.(dock := Ledger.Cleanup(d, pid)), q.(pc := UnlockDock(WantBelt(Logout)))))
    case _ => None
  }

  /** The write of the dispatcher's load attempt and of an express batch, from the copy `d`. */
  function LoaderBody(s: Memory, q: Proc, op: DockOp, d: Ledger.Dock, c: Choice): Option<Move> {
    match op
    case Load =>
      if |q.pkg| != 1 then None else
      var (d', a) := Ledger.LoadPackage(d, q.pkg[0]);
      (match a
       case NoTruck => Some(Move(s, q.(pc := UnlockDock(DispRetry))))
       case Rejected =>
         Some(Move(s.(dock := d'),
                   q.(pc := SendDock(d.truck.id, DispRetry), rejects := q.rejects + {d.dockings})))
       case Loaded(full) =>
         Some(Move(s.(dock := d', log := s.log.(hand := [])),
                   q.(pc := if full then SendDock(d.truck.id, DispHead) else UnlockDock(DispHead), pkg := []))))
    case Batch =>
      if !d.truck.isPresent then Some(Move(s, q.(pc := UnlockDock(ExprHead))))
      else if c.Items? && 3 <= |c.items| <= 5 &&
              (forall i :: 0 <= i < |c.items| ==> Docking.ExpressItem(c.items[i]))
      then
        var (d', complete) := Ledger.LoadBatch(d, c.items);
        Some(Move(s.(dock := d'),
                  q.(pc := if complete then UnlockDock(ExprHead) else SendDock(d.truck.id, ExprHead))))
      else None
    case _ => None
  }

  /** Reading the guarded data, sending under the dock mutex, and unlocking. */
  function RelayStep(s: Memory, q: Proc): Option<Move> {
    match q.pc
    case InBelt(op) => Some(Move(s, q.(pc := DoBelt(op, s.belt))))
    case UnlockBelt(next) => Some(Move(s.(beltMutex := s.beltMutex + 1), q.(pc := At(next))))
    case InDock(op) => Some(Move(s, q.(pc := DoDock(op, s.dock))))
    case SendDock(to, next) =>
      Some(Move(s.(queue := Send(s.queue, to, Departure)), q.(pc := UnlockDock(next))))
    case UnlockDock(next) => Some(Move(s.(dockMutex := s.dockMutex + 1), q.(pc := At(next))))
    case _ => None
  }

  /** Locking a mutex. */
  function EnterStep(s: Memory, q: Proc, pt: Point): Option<Move> {
    match pt
    case WantBelt(op) =>
      if s.beltMutex == 0 then None
      else Some(Move(s.(beltMutex := s.beltMutex - 1), q.(pc := InBelt(op))))
    case WantDock(op) =>
      if s.dockMutex == 0 then None
      else Some(Move(s.(dockMutex := s.dockMutex - 1), q.(pc := InDock(op))))
    case _ => None
  }

  /** The counting semaphores. A wait that is interrupted returns without a token
      (include/Manager.h:204-215). */
  function TokenStep(s: Memory, q: Proc, pt: Point, c: Choice): Option<Move> {
    match pt
    case WaitEmpty =>
      if c.Interrupt?
      then Some(Move(s.(log := s.log.(emptyInterrupts := s.log.emptyInterrupts + 1)), q.(pc := At(WantBelt(Push)))))
      else if s.empty == 0 then None
      else Some(Move(s.(empty := s.empty - 1), q.(pc := At(WantBelt(Push)))))
    case WaitFull =>
      if c.Interrupt?
      then Some(Move(s.(log := s.log.(fullInterrupts := s.log.fullInterrupts + 1)), q.(pc := At(WantBelt(Pop)))))
      else if s.full == 0 then None
      else Some(Move(s.(full := s.full - 1), q.(pc := At(WantBelt(Pop)))))
    case PutFull => Some(Move(s.(full := s.full + 1), q.(pc := At(WantBelt(Finish)))))
    case PutBackEmpty => Some(Move(s.(empty := s.empty + 1), q.(pc := At(WantBelt(Finish)))))
    case FreeEmpty => Some(Move(s.(empty := s.empty + 1), q.(pc := At(DispRetry))))
    case GiveBackFull => Some(Move(s.(full := s.full + 1), q.(pc := At(DispHead))))
    case _ => None
  }

  /** Steps of a process between its critical sections: unlocked reads and messages. */
  function LocalStep(s: Memory, pid: int, q: Proc, pt: Point, c: Choice): Option<Move> {
    match pt
    case WorkHead =>
      Some(Move(s, q.(pc := At(WantBelt(if s.running && !c.Quit? then Spawn else Unregister)))))
    case Make =>
      if c.Pack? && WorkerMade(c.p) then Some(Move(s, q.(pc := At(LoadTest), pkg := [c.p]))) else None
    case LoadTest => Some(Move(s, q.(pc := At(if s.belt.workers <= 0 then WaitEmpty else LoadDivide))))
    case LoadDivide => Some(Move(s, q.(pc := At(if s.belt.workers == 0 then Crashed else WaitEmpty))))
    case TruckHead => Some(Move(s, q.(pc := At(WantDock(if s.running then Claim else Cleanup)))))
    case TruckWait =>
      if c.Interrupt? then Some(Move(s, q.(pc := At(TruckGot(NoSignal)))))
      else if Queued(s.queue, pid) == [] then None
      else Some(Move(s.(queue := s.queue[pid := s.queue[pid][1..]]), q.(pc := At(TruckGot(s.queue[pid][0])))))
    case TruckGot(sig) =>
      Some(Move(s, q.(pc := At(WantDock(if sig == EndWork || !s.running then Shutdown else Depart)))))
    case DispHead => Some(Move(s, q.(pc := At(if s.running then WaitFull else WantBelt(Logout)))))
    case DispRetry =>
      if s.running then Some(Move(s, q.(pc := At(WantDock(Load)))))
      else Some(Move(s.(log := s.log.(dropped := s.log.dropped + q.pkg, hand := [])),
                       q.(pc := At(DispHead), pkg := [])))
    case ExprHead =>
      Some(Move(s, q.(pc := At(if s.running && !c.Quit? then ExprWait else WantBelt(Logout)))))
    case ExprWait =>
      if c.Interrupt? then Some(Move(s, q.(pc := At(ExprHead))))
      else if Queued(s.queue, pid) == [] then None
      else Some(Move(s.(queue := s.queue[pid := s.queue[pid][1..]]),
                       q.(pc := At(match s.queue[pid][0]
                                case ExpressLoad => WantDock(Batch)
                                case EndWork => WantBelt(Logout)
                                case _ => ExprHead))))
    case MonHead => Some(Move(s, q.(pc := At(if s.running && !c.Quit? then MonHead else WantBelt(Logout)))))
    case _ => None
  }

  /** Steps of the operator's console. The session table and the dock are read without a lock. */
  function TerminalStep(s: Memory, pid: int, q: Proc, pt: Point, c: Choice): Option<Move> {
    var role := User(s.belt.users, q.slot).role;
    match pt
    case TermHead => Some(Move(s, q.(pc := At(if s.running && !c.Quit? then TermIdle else WantBelt(Logout)))))
    case TermIdle =>
      (match c
       case Quit => Some(Move(s, q.(pc := At(WantBelt(Logout)))))
       case VipCommand =>
         Some(Move(s, q.(pc := At(if HasFlag(role, {Operator, SysAdmin}) then VipScan(0) else TermHead))))
       case DepartCommand =>
         Some(Move(s, q.(pc := At(if HasFlag(role, {Operator, SysAdmin}) && s.dock.truck.isPresent
                                      then DepartId else TermHead))))
       case StopCommand =>
         if HasFlag(role, {SysAdmin}) then Some(Move(s.(running := false), q.(pc := At(StopScan(0)))))
         else Some(Move(s, q.(pc := At(TermHead))))
       case Go => Some(Move(s, q.(pc := At(TermHead))))
       case _ => None)
    case DepartId => Some(Move(s, q.(pc := At(DepartSend(s.dock.truck.id)))))
    case DepartSend(to) => Some(Move(s.(queue := Send(s.queue, to, Departure)), q.(pc := At(TermHead))))
    case StopScan(i) =>
      if i >= |s.belt.users| then Some(Move(s, q.(pc := At(WantBelt(Logout)))))
      else if s.belt.users[i].active then Some(Move(s, q.(pc := At(StopPid(i)))))
      else Some(Move(Swept(s, i + 1), q.(pc := At(StopScan(i + 1)))))
    case StopPid(i) => Some(Move(s, q.(pc := At(StopSend(i, User(s.belt.users, i).sessionPid)))))
    case StopSend(i, to) =>
      Some(Move(Swept(s, i + 1).(queue := Send(s.queue, to, EndWork)), q.(pc := At(StopScan(i + 1)))))
    case VipScan(i) =>
      if i >= |s.belt.users| then Some(Move(s, q.(pc := At(TermHead))))
      else if s.belt.users[i].active && s.belt.users[i].username == EXPRESS_NAME
      then Some(Move(s, q.(pc := At(VipPid(i)))))
      else Some(Move(s, q.(pc := At(VipScan(i + 1)))))
    case VipPid(i) => Some(Move(s, q.(pc := At(VipSend(User(s.belt.users, i).sessionPid)))))
    case VipSend(to) => Some(Move(s.(queue := Send(s.queue, to, ExpressLoad)), q.(pc := At(TermHead))))
    case _ => None
  }

  function Swept(s: Memory, n: nat): Memory {
    s.(log := s.log.(swept := if n > s.log.swept then n else s.log.swept))
  }

  predicate Logging(pc: PC) {
    pc.LoginMark? || pc.LoginName? || pc.LoginPid?
  }

  predicate AtTerminal(pt: Point) {
    pt.TermHead? || pt.TermIdle? || pt.DepartId? || pt.DepartSend? || pt.StopScan? || pt.StopPid? || pt.StopSend? ||
    pt.VipScan? || pt.VipPid? || pt.VipSend?
  }

  predicate AtToken(pt: Point) {
    pt.WaitEmpty? || pt.WaitFull? || pt.PutFull? || pt.PutBackEmpty? ||
    pt.FreeEmpty? || pt.GiveBackFull?
  }

  function PointStep(s: Memory, pid: int, q: Proc, pt: Point, c: Choice): Option<Move> {
    if AtTerminal(pt) then TerminalStep(s, pid, q, pt, c)
    else if pt.WantBelt? || pt.WantDock? then EnterStep(s, q, pt)
    else if AtToken(pt) then TokenStep(s, q, pt, c)
    else LocalStep(s, pid, q, pt, c)
  }

  /** One step of a process inside a critical section. */
  function HoldStep(s: Memory, pid: int, q: Proc, c: Choice): Option<Move> {
    match q.pc
    case DoBelt(op, v) => if SessionOp(op) then SessionBody(s, pid, q, op, v.users) else FloorBody(s, q, op, v)
    case DoDock(op, d) => if op.Load? || op.Batch? then LoaderBody(s, q, op, d, c) else TruckBody(s, pid, q, op, d, c)
    case _ => if Logging(q.pc) then LoginStage(s, pid, q) else RelayStep(s, q)
  }

  function ProcStep(s: Memory, pid: int, q: Proc, c: Choice): Option<Move> {
    if q.pc.At? then PointStep(s, pid, q, q.pc.point, c) else HoldStep(s, pid, q, c)
  }

  /** One step of the system; None when the step is not enabled. `Halt` is the master clearing
      `running` (src/main.cpp:118). */
  function Step(s: State, l: Label): Option<State> {
    match l
    case Act(pid, c) =>
      if pid !in s.procs then None else
      (match ProcStep(s.sh, pid, s.procs[pid], c)
       case None => None
       case Some(m) => Some(State(m.sh, s.procs[pid := m.q])))
    case Fork(pid, kind, name, role, quota) =>
      if pid > 0 && pid !in s.procs && NameFits(kind, name)
      then Some(s.(procs := s.procs[pid := Proc(kind, name, role, quota, At(WantBelt(Login)), -1, [], {})]))
      else None
    case Halt => Some(s.(sh := s.sh.(running := false)))
  }

  /** The state after a sequence of steps; None when some step is not enabled. */
  function Exec(s: State, ls: seq<Label>): Option<State> {
    if ls == [] then Some(s)
    else match Exec(s, ls[..|ls| - 1])
         case None => None
         case Some(s') => Step(s', ls[|ls| - 1])
  }

  /** States of the runs of a warehouse with a belt of `capacity` slots. */
  ghost predicate Reachable(s: State, capacity: nat) {
    capacity > 0 && exists ls :: Exec(Init(capacity), ls) == Some(s)
  }
}
