/** What the single steps take and give: the semantics of semaphores, receives and loop tests that
    the other results rest on, stated for every state. */
module StepTheorems {
  import opened Shared
  import opened Protocol

  /** A wait on a mutex goes through exactly if the mutex is free, and takes it. */
  lemma MutexWait(s: Memory, pid: int, q: Proc, c: Choice)
    requires q.pc.At? && (q.pc.point.WantBelt? || q.pc.point.WantDock?)
    ensures var m := ProcStep(s, pid, q, c);
      && (q.pc.point.WantBelt? ==>
            m == if s.beltMutex > 0 then Some(Move(s.(beltMutex := s.beltMutex - 1), q.(pc := InBelt(q.pc.point.bop)))) else None)
      && (q.pc.point.WantDock? ==>
            m == if s.dockMutex > 0 then Some(Move(s.(dockMutex := s.dockMutex - 1), q.(pc := InDock(q.pc.point.dop)))) else None)
  {
    hide LocalStep, TokenStep, TerminalStep;
  }

  /** The tokens that a step leaves, and whether it counts as an interrupted wait. */
  predicate Tokens(s: Memory, m: Move, empty: int, full: int, interrupts: int) {
    && m.sh.empty == s.empty + empty && m.sh.full == s.full + full
    && m.sh.log.emptyInterrupts + m.sh.log.fullInterrupts == s.log.emptyInterrupts + s.log.fullInterrupts + interrupts
    && m.sh.belt == s.belt && m.sh.dock == s.dock && m.sh.queue == s.queue && m.sh.running == s.running
  }

  /** A wait on a counting semaphore goes through exactly if it has a token, and takes it, or if the
      wait is interrupted, and then takes none; either way the process goes on as if it had one. */
  lemma CountingWait(s: Memory, pid: int, q: Proc, c: Choice)
    requires q.pc == At(WaitEmpty) || q.pc == At(WaitFull)
    ensures var m := ProcStep(s, pid, q, c);
      && (m.Some? <==> c.Interrupt? || (if q.pc == At(WaitEmpty) then s.empty > 0 else s.full > 0))
      && (m.Some? ==> m.value.q == q.(pc := At(WantBelt(if q.pc == At(WaitEmpty) then Push else Pop))))
      && (m.Some? && c.Interrupt? ==> Tokens(s, m.value, 0, 0, 1))
      && (m.Some? && !c.Interrupt? && q.pc == At(WaitEmpty) ==> Tokens(s, m.value, -1, 0, 0))
      && (m.Some? && !c.Interrupt? && q.pc == At(WaitFull) ==> Tokens(s, m.value, 0, -1, 0))
  {
    hide LocalStep, EnterStep, TerminalStep;
  }

  /** An interrupted receive takes no message: a truck sets out with none, the express process tries
      again. */
  lemma InterruptedReceive(s: Memory, pid: int, q: Proc)
    requires q.pc == At(TruckWait) || q.pc == At(ExprWait)
    ensures ProcStep(s, pid, q, Interrupt) ==
      Some(Move(s, q.(pc := At(if q.pc == At(TruckWait) then TruckGot(NoSignal) else ExprHead))))
  {
    hide TokenStep, EnterStep, TerminalStep;
  }

  /** A loop goes on exactly while the system runs and the process has not been asked to stop, which
      trucks and the dispatcher cannot be. */
  lemma LoopsTestRunning(s: Memory, pid: int, q: Proc, c: Choice)
    requires q.pc.At?
    ensures q.pc.point.WorkHead? ==>
      ProcStep(s, pid, q, c) == Some(Move(s, q.(pc := At(WantBelt(if s.running && c != Quit then Spawn else Unregister)))))
    ensures q.pc.point.TruckHead? ==>
      ProcStep(s, pid, q, c) == Some(Move(s, q.(pc := At(WantDock(if s.running then Claim else Cleanup)))))
    ensures q.pc.point.DispHead? ==>
      ProcStep(s, pid, q, c) == Some(Move(s, q.(pc := At(if s.running then WaitFull else WantBelt(Logout)))))
    ensures q.pc.point.ExprHead? ==>
      ProcStep(s, pid, q, c) == Some(Move(s, q.(pc := At(if s.running && c != Quit then ExprWait else WantBelt(Logout)))))
    ensures q.pc.point.MonHead? ==>
      ProcStep(s, pid, q, c) == Some(Move(s, q.(pc := At(if s.running && c != Quit then MonHead else WantBelt(Logout)))))
    ensures q.pc.point.TermHead? ==>
      ProcStep(s, pid, q, c) == Some(Move(s, q.(pc := At(if s.running && c != Quit then TermIdle else WantBelt(Logout)))))
    ensures q.pc.point.TermIdle? && c.Quit? ==> ProcStep(s, pid, q, c) == Some(Move(s, q.(pc := At(WantBelt(Logout)))))
    ensures q.pc.point.TruckGot? ==>
      ProcStep(s, pid, q, c) ==
      Some(Move(s, q.(pc := At(WantDock(if q.pc.point.sig == EndWork || !s.running then Shutdown else Depart)))))
  {
    hide TokenStep, EnterStep;
    match q.pc.point
    case WorkHead =>
    case TruckHead =>
    case DispHead =>
    case ExprHead =>
    case MonHead =>
    case TermHead =>
    case TermIdle =>
    case TruckGot(_) =>
    case _ =>
  }
}
