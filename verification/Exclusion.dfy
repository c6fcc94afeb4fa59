/** Mutual exclusion: the mutexes admit one process at a time, so the private copy a process
    made of the guarded data is still current when it writes. */
module Exclusion {
  import opened Shared
  import opened Counting
  import opened Protocol
  import opened Structure

  predicate BeltHolder(q: Proc) { HoldsBelt(q.pc) }

  predicate DockHolder(q: Proc) { HoldsDock(q.pc) }

  ghost predicate BaseOk(s: State) {
    && (forall p :: p in s.procs ==> p > 0 && ProcOk(s.procs[p]) && Fresh(s.sh, s.procs[p]))
    && s.sh.beltMutex + Count(s.procs, BeltHolder) == 1
    && s.sh.dockMutex + Count(s.procs, DockHolder) == 1
  }

  lemma HoldGuarded(s: Memory, pid: int, q: Proc, c: Choice, m: Move)
    requires ProcOk(q) && !q.pc.At? && HoldStep(s, pid, q, c) == Some(m)
    ensures Guarded(s, q, m)
  {
    hide SessionBody, FloorBody, LoaderBody, TruckBody, LoginStage, RelayStep, ProcOk;
    if q.pc.DoBelt? {
      var op, v := q.pc.bop, q.pc.seenBelt;
      if SessionOp(op) {
        SessionShape(s, pid, q, op, v, m);
      } else {
        FloorShape(s, q, op, v, m);
      }
    } else if q.pc.DoDock? {
      var op, d := q.pc.dop, q.pc.seenDock;
      if op.Load? || op.Batch? {
        LoaderShape(s, q, op, d, c, m);
      } else {
        TruckShape(s, pid, q, op, d, c, m);
      }
    } else if Logging(q.pc) {
      LoginShape(s, pid, q, m);
    } else {
      RelayShape(s, q, m);
    }
  }

  lemma PointGuarded(s: Memory, pid: int, q: Proc, c: Choice, m: Move)
    requires ProcOk(q) && q.pc.At? && PointStep(s, pid, q, q.pc.point, c) == Some(m)
    ensures Guarded(s, q, m)
  {
    hide TerminalStep, EnterStep, TokenStep, LocalStep, ProcOk;
    var pt := q.pc.point;
    if AtTerminal(pt) {
      TerminalShape(s, pid, q, pt, c, m);
    } else if pt.WantBelt? || pt.WantDock? {
      EnterShape(s, q, pt, m);
    } else if AtToken(pt) {
      TokenShape(s, q, pt, c, m);
    } else {
      LocalShape(s, pid, q, pt, c, m);
    }
  }

  lemma ProcGuarded(s: Memory, pid: int, q: Proc, c: Choice, m: Move)
    requires ProcOk(q) && ProcStep(s, pid, q, c) == Some(m)
    ensures Guarded(s, q, m)
  {
    hide HoldStep, PointStep;
    if q.pc.At? {
      PointGuarded(s, pid, q, c, m);
    } else {
      HoldGuarded(s, pid, q, c, m);
    }
  }

  /** Two processes never hold the same mutex. */
  lemma Exclusive(s: State, p: int, r: int)
    requires BaseOk(s) && p in s.procs && r in s.procs && p != r
    ensures !(HoldsBelt(s.procs[p].pc) && HoldsBelt(s.procs[r].pc))
    ensures !(HoldsDock(s.procs[p].pc) && HoldsDock(s.procs[r].pc))
  {
    if HoldsBelt(s.procs[p].pc) && HoldsBelt(s.procs[r].pc) {
      CountTwo(s.procs, p, r, BeltHolder);
    }
    if HoldsDock(s.procs[p].pc) && HoldsDock(s.procs[r].pc) {
      CountTwo(s.procs, p, r, DockHolder);
    }
  }

  lemma BaseAct(s: State, pid: int, c: Choice, m: Move)
    requires BaseOk(s) && pid in s.procs && ProcStep(s.sh, pid, s.procs[pid], c) == Some(m)
    ensures BaseOk(State(m.sh, s.procs[pid := m.q]))
  {
    hide ProcStep, ProcOk, SameProcess;
    var q := s.procs[pid];
    ProcGuarded(s.sh, pid, q, c, m);
    CountUpdate(s.procs, pid, m.q, BeltHolder);
    CountUpdate(s.procs, pid, m.q, DockHolder);
    var s' := State(m.sh, s.procs[pid := m.q]);
    forall p | p in s'.procs
      ensures p > 0 && ProcOk(s'.procs[p]) && Fresh(s'.sh, s'.procs[p])
    {
      if p != pid {
        Exclusive(s, pid, p);
      }
    }
  }
}
