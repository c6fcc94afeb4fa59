/** The belt under any number of producers and consumers: conservation of semaphore tokens,
    refinement of a queue of numbered packages, and the count of registered workers. */
module Floor {
  import opened Shared
  import opened Counting
  import opened SessionTable
  import BeltRing
  import opened Protocol
  import opened Structure
  import opened Exclusion

  /** The process took a token from the empty-slots semaphore, or freed a slot, and has not
      yet turned it into a package or given it back. */
  predicate OwesEmpty(q: Proc) {
    var pt := Place(q.pc); pt == WantBelt(Push) || pt.PutBackEmpty? || pt.FreeEmpty?
  }

  /** The same for the full-slots semaphore. */
  predicate OwesFull(q: Proc) {
    var pt := Place(q.pc); pt == WantBelt(Pop) || pt.PutFull? || pt.GiveBackFull?
  }

  /** A worker between `registerWorker` and `unregisterWorker`. */
  predicate Registered(q: Proc) {
    var pt := Place(q.pc);
    || pt.WorkHead? || pt.Make? || pt.LoadTest? || pt.LoadDivide? || pt.WaitEmpty? || pt.PutFull?
    || pt.PutBackEmpty? || pt.Crashed?
    || (pt.WantBelt? && (pt.bop.Spawn? || pt.bop.Push? || pt.bop.Finish? || pt.bop.Unregister?))
  }

  function EmptyBalance(sh: Memory): int {
    sh.empty + sh.belt.ring.count - |sh.belt.ring.slots| - sh.log.emptyInterrupts
  }

  function FullBalance(sh: Memory): int {
    sh.full - sh.belt.ring.count - sh.log.fullInterrupts
  }

  /** Every interrupted wait puts one token too many into circulation; nothing else does. */
  ghost predicate TokensOk(s: State) {
    && EmptyBalance(s.sh) + Count(s.procs, OwesEmpty) == 0
    && FullBalance(s.sh) + Count(s.procs, OwesFull) == 0
  }

  ghost predicate QueueOk(sh: Memory) {
    BeltRing.History(sh.belt.ring, sh.log.pushed, sh.log.popped)
  }

  ghost predicate WorkersOk(s: State) {
    && s.sh.belt.workers == Count(s.procs, Registered) <= MAX_WORKERS_PER_BELT
    && (forall p :: p in s.procs ==> !Place(s.procs[p].pc).Crashed?)
  }

  ghost predicate PackagesOk(s: State) {
    forall p, x :: p in s.procs && x in s.procs[p].pkg ==> WorkerMade(x)
  }

  ghost predicate FloorOk(s: State) {
    TokensOk(s) && QueueOk(s.sh) && WorkersOk(s) && PackagesOk(s)
  }

  /** What a step does to the balances and to the worker count. */
  predicate Balanced(s: Memory, q: Proc, m: Move) {
    && !Place(m.q.pc).Crashed?
    && EmptyBalance(m.sh) + One(OwesEmpty(m.q)) == EmptyBalance(s) + One(OwesEmpty(q))
    && FullBalance(m.sh) + One(OwesFull(m.q)) == FullBalance(s) + One(OwesFull(q))
    && m.sh.belt.workers - One(Registered(m.q)) == s.belt.workers - One(Registered(q))
    && (s.belt.workers <= MAX_WORKERS_PER_BELT ==> m.sh.belt.workers <= MAX_WORKERS_PER_BELT)
  }

  lemma FloorBalanced(s: Memory, q: Proc, op: BeltOp, m: Move)
    requires q.pc == DoBelt(op, s.belt) && FloorBody(s, q, op, s.belt) == Some(m)
    requires Registered(q) ==> s.belt.workers > 0
    ensures Balanced(s, q, m)
  {
    hide FloorBody, Balanced, Registered;
    match op
    case Push => PushBalanced(s, q, m);
    case Pop => PopBalanced(s, q, m);
    case _ => CountBalanced(s, q, op, m);
  }

  lemma PushBalanced(s: Memory, q: Proc, m: Move)
    requires q.pc == DoBelt(Push, s.belt) && FloorBody(s, q, Push, s.belt) == Some(m)
    ensures Balanced(s, q, m)
  {
  }

  lemma PopBalanced(s: Memory, q: Proc, m: Move)
    requires q.pc == DoBelt(Pop, s.belt) && FloorBody(s, q, Pop, s.belt) == Some(m)
    ensures Balanced(s, q, m)
  {
  }

  lemma CountBalanced(s: Memory, q: Proc, op: BeltOp, m: Move)
    requires q.pc == DoBelt(op, s.belt) && !op.Push? && !op.Pop? && FloorBody(s, q, op, s.belt) == Some(m)
    requires Registered(q) ==> s.belt.workers > 0
    ensures Balanced(s, q, m)
  {
    match op
    case Register =>
    case Unregister =>
    case _ =>
  }

  lemma FloorQueue(s: Memory, q: Proc, op: BeltOp, m: Move)
    requires q.pc == DoBelt(op, s.belt) && FloorBody(s, q, op, s.belt) == Some(m)
    requires QueueOk(s) && (op.Push? ==> forall x :: x in q.pkg ==> WorkerMade(x))
    ensures QueueOk(m.sh) && |m.sh.belt.ring.slots| == |s.belt.ring.slots|
    ensures m.q.pkg == q.pkg || forall x :: x in m.q.pkg ==> WorkerMade(x)
  {
    hide BeltRing.History, BeltRing.Window, BeltRing.RingOk;
    match op
    case Push =>
      BeltRing.PushHistory(s.belt.ring, q.pkg[0], s.log.pushed, s.log.popped);
    case Pop =>
      BeltRing.PopHistory(s.belt.ring, s.log.pushed, s.log.popped);
    case _ =>
  }

  lemma SessionBalanced(s: Memory, pid: int, q: Proc, op: BeltOp, v: Belt, m: Move)
    requires q.pc == DoBelt(op, v) && SessionBody(s, pid, q, op, v.users) == Some(m)
    ensures Balanced(s, q, m)
  {
    hide LoginSlot;
    match op
    case Login =>
    case Logout =>
    case Spawn =>
    case Finish =>
    case _ =>
  }

  lemma TokenBalanced(s: Memory, q: Proc, pt: Point, c: Choice, m: Move)
    requires q.pc == At(pt) && TokenStep(s, q, pt, c) == Some(m)
    ensures Balanced(s, q, m)
  {
    match pt
    case WaitEmpty =>
    case WaitFull =>
    case PutFull =>
    case PutBackEmpty =>
    case FreeEmpty =>
    case GiveBackFull =>
    case _ =>
  }

  lemma LocalBalanced(s: Memory, pid: int, q: Proc, pt: Point, c: Choice, m: Move)
    requires q.pc == At(pt) && LocalStep(s, pid, q, pt, c) == Some(m)
    requires Registered(q) ==> s.belt.workers > 0
    ensures Balanced(s, q, m)
    ensures m.q.pkg == q.pkg || forall x :: x in m.q.pkg ==> WorkerMade(x)
  {
    hide LocalStep, Balanced, Registered, WorkerMade;
    if pt.WorkHead? || pt.Make? || pt.LoadTest? || pt.LoadDivide? {
      WorkerBalanced(s, pid, q, pt, c, m);
    } else {
      OtherBalanced(s, pid, q, pt, c, m);
    }
  }

  lemma WorkerBalanced(s: Memory, pid: int, q: Proc, pt: Point, c: Choice, m: Move)
    requires q.pc == At(pt) && LocalStep(s, pid, q, pt, c) == Some(m)
    requires pt.WorkHead? || pt.Make? || pt.LoadTest? || pt.LoadDivide?
    requires Registered(q) ==> s.belt.workers > 0
    ensures Balanced(s, q, m)
    ensures m.q.pkg == q.pkg || forall x :: x in m.q.pkg ==> WorkerMade(x)
  {
    match pt
    case WorkHead =>
    case Make =>
    case LoadTest =>
    case LoadDivide =>
  }

  lemma OtherBalanced(s: Memory, pid: int, q: Proc, pt: Point, c: Choice, m: Move)
    requires q.pc == At(pt) && LocalStep(s, pid, q, pt, c) == Some(m)
    requires !pt.WorkHead? && !pt.Make? && !pt.LoadTest? && !pt.LoadDivide?
    ensures Balanced(s, q, m)
    ensures m.q.pkg == q.pkg || m.q.pkg == []
  {
    match pt
    case TruckHead =>
    case TruckWait =>
    case TruckGot(_) =>
    case DispHead =>
    case DispRetry =>
    case ExprHead =>
    case ExprWait =>
    case MonHead =>
    case _ =>
  }

  /** Steps that leave the belt alone. */
  lemma QuietBalanced(s: Memory, q: Proc, m: Move)
    requires m.sh.belt.ring == s.belt.ring && m.sh.belt.workers == s.belt.workers
    requires m.sh.empty == s.empty && m.sh.full == s.full
    requires m.sh.log.emptyInterrupts == s.log.emptyInterrupts && m.sh.log.fullInterrupts == s.log.fullInterrupts
    requires !Place(q.pc).Crashed?
    requires Place(m.q.pc) == Place(q.pc) || (OffFloor(Place(q.pc)) && OffFloor(Place(m.q.pc)))
    ensures Balanced(s, q, m)
  {
  }

  ghost predicate FloorKept(s: Memory, q: Proc, m: Move) {
    && Balanced(s, q, m) && QueueOk(m.sh) && |m.sh.belt.ring.slots| == |s.belt.ring.slots|
    && (forall x :: x in m.q.pkg ==> WorkerMade(x))
  }

  lemma HoldFloor(s: Memory, pid: int, q: Proc, c: Choice, m: Move)
    requires ProcOk(q) && Fresh(s, q) && !q.pc.At? && HoldStep(s, pid, q, c) == Some(m)
    requires QueueOk(s) && !Place(q.pc).Crashed? && (Registered(q) ==> s.belt.workers > 0)
    requires forall x :: x in q.pkg ==> WorkerMade(x)
    ensures FloorKept(s, q, m)
  {
    hide SessionBody, FloorBody, LoaderBody, TruckBody, LoginStage, RelayStep, BeltRing.History, Guarded, ProcOk, WorkerMade, Balanced;
    if q.pc.DoBelt? {
      var op, v := q.pc.bop, q.pc.seenBelt;
      if SessionOp(op) {
        SessionShape(s, pid, q, op, v, m);
        SessionBalanced(s, pid, q, op, v, m);
      } else {
        FloorBalanced(s, q, op, m);
        FloorQueue(s, q, op, m);
      }
    } else if q.pc.DoDock? {
      var op, d := q.pc.dop, q.pc.seenDock;
      if op.Load? || op.Batch? {
        LoaderShape(s, q, op, d, c, m);
      } else {
        TruckShape(s, pid, q, op, d, c, m);
      }
      QuietBalanced(s, q, m);
    } else if Logging(q.pc) {
      LoginShape(s, pid, q, m);
      QuietBalanced(s, q, m);
    } else {
      RelayShape(s, q, m);
      QuietBalanced(s, q, m);
    }
  }

  lemma PointFloor(s: Memory, pid: int, q: Proc, c: Choice, m: Move)
    requires ProcOk(q) && q.pc.At? && PointStep(s, pid, q, q.pc.point, c) == Some(m)
    requires QueueOk(s) && !Place(q.pc).Crashed? && (Registered(q) ==> s.belt.workers > 0)
    requires forall x :: x in q.pkg ==> WorkerMade(x)
    ensures FloorKept(s, q, m)
  {
    hide TerminalStep, EnterStep, TokenStep, LocalStep, BeltRing.History, Guarded, ProcOk, WorkerMade, Balanced;
    var pt := q.pc.point;
    if AtTerminal(pt) {
      TerminalShape(s, pid, q, pt, c, m);
      QuietBalanced(s, q, m);
    } else if pt.WantBelt? || pt.WantDock? {
      EnterShape(s, q, pt, m);
      QuietBalanced(s, q, m);
    } else if AtToken(pt) {
      TokenShape(s, q, pt, c, m);
      TokenBalanced(s, q, pt, c, m);
    } else {
      LocalShape(s, pid, q, pt, c, m);
      LocalBalanced(s, pid, q, pt, c, m);
    }
  }

  lemma FloorJoin(s: State, pid: int, m: Move)
    requires FloorOk(s) && pid in s.procs && FloorKept(s.sh, s.procs[pid], m)
    ensures FloorOk(State(m.sh, s.procs[pid := m.q]))
  {
    hide BeltRing.History, WorkerMade, OwesEmpty, OwesFull, Registered, EmptyBalance, FullBalance;
    CountUpdate(s.procs, pid, m.q, OwesEmpty);
    CountUpdate(s.procs, pid, m.q, OwesFull);
    CountUpdate(s.procs, pid, m.q, Registered);
  }

  lemma FloorAct(s: State, pid: int, c: Choice, m: Move)
    requires BaseOk(s) && FloorOk(s) && pid in s.procs && ProcStep(s.sh, pid, s.procs[pid], c) == Some(m)
    ensures FloorOk(State(m.sh, s.procs[pid := m.q]))
    ensures |m.sh.belt.ring.slots| == |s.sh.belt.ring.slots|
  {
    hide HoldStep, PointStep, ProcOk, Fresh, WorkerMade, BeltRing.History, Registered, Balanced, EmptyBalance, FullBalance;
    var q := s.procs[pid];
    if Registered(q) {
      CountOne(s.procs, pid, Registered);
    }
    if q.pc.At? {
      PointFloor(s.sh, pid, q, c, m);
    } else {
      HoldFloor(s.sh, pid, q, c, m);
    }
    FloorJoin(s, pid, m);
  }
}
