/** The stop command against everything that goes on meanwhile: it is never undone, nobody is
    told to end work while the system runs, and nobody is left waiting without a message. */
module Shutdown {
  import opened Shared
  import opened SessionTable
  import BeltRing
  import Ledger
  import opened Protocol
  import opened Structure
  import opened Exclusion
  import opened ControlFlow
  import opened Mail
  import opened Registry

  /** A truck that has found the system running and will wait for a message, or is waiting, and an
      express process that is waiting. */
  predicate Committed(q: Proc) {
    var pt := Place(q.pc); pt == WantDock(Claim) || pt.TruckWait? || pt.ExprWait?
  }

  /** Places that are reached only after the stop. */
  predicate Stopping(pt: Point) {
    pt.StopScan? || pt.StopPid? || pt.StopSend? || pt == TruckGot(EndWork) || pt == WantDock(Shutdown) || pt == WantDock(Cleanup)
  }

  predicate StopFacts(sh: Memory, q: Proc) {
    var pt := Place(q.pc);
    && (Stopping(pt) ==> !sh.running)
    && (pt.StopScan? || pt.StopPid? || pt.StopSend? ==> pt.i <= sh.log.swept)
  }

  /** A stop scan that has read the pid of slot `i` has read that of the process in the slot. */
  predicate ScanSees(z: Proc, t: int, q: Proc) {
    var pt := Place(z.pc); pt.StopSend? && Committed(q) && q.slot == pt.i ==> pt.to == t
  }

  /** The scan has passed a committed process's slot only if the process has its message. */
  ghost predicate Told(sh: Memory, t: int, q: Proc) {
    Committed(q) && 0 <= q.slot < sh.log.swept ==> EndWork in Queued(sh.queue, t)
  }

  ghost predicate StopOk(s: State) {
    && (s.sh.log.swept > 0 ==> !s.sh.running)
    && (forall x :: EndWork in Queued(s.sh.queue, x) ==> !s.sh.running)
    && (forall p :: p in s.procs ==> StopFacts(s.sh, s.procs[p]) && Told(s.sh, p, s.procs[p]))
    && (forall z, t :: z in s.procs && t in s.procs ==> ScanSees(s.procs[z], t, s.procs[t]))
  }

  /** The reads of `running` that a step's destination depends on, and the progress of a scan. */
  predicate StopMove(s: Memory, q: Proc, m: Move) {
    var pt, pt' := Place(q.pc), Place(m.q.pc);
    && (m.sh.running ==> s.running)
    && m.sh.log.swept >= s.log.swept
    && (m.sh.log.swept > s.log.swept ==>
          || (q.pc.At? && pt.StopScan? && pt.i < |s.belt.users| && !s.belt.users[pt.i].active && m.sh.log.swept == pt.i + 1)
          || (q.pc.At? && pt.StopSend? && m.sh.log.swept == pt.i + 1 && m.sh.queue == Send(s.queue, pt.to, EndWork)))
    && (pt' != pt ==>
          && (pt' == WantDock(Claim) ==> s.running)
          && (pt'.TruckWait? ==> pt == WantDock(Claim))
          && (pt'.ExprWait? ==> s.running)
          && (pt'.StopSend? ==> pt.StopPid? && pt.i == pt'.i && pt'.to == User(s.belt.users, pt.i).sessionPid))
  }

  lemma TerminalStop(s: Memory, pid: int, q: Proc, pt: Point, c: Choice, m: Move)
    requires q.pc == At(pt) && AtTerminal(pt) && TerminalStep(s, pid, q, pt, c) == Some(m) && StopFacts(s, q)
    ensures StopMove(s, q, m) && StopFacts(m.sh, m.q)
  {
    match pt
    case TermHead =>
    case TermIdle =>
    case DepartId =>
    case DepartSend(_) =>
    case StopScan(_) =>
    case StopPid(_) =>
    case StopSend(_, _) =>
    case VipScan(_) =>
    case VipPid(_) =>
    case VipSend(_) =>
    case _ =>
  }

  lemma LocalStop(s: Memory, pid: int, q: Proc, pt: Point, c: Choice, m: Move)
    requires q.pc == At(pt) && LocalStep(s, pid, q, pt, c) == Some(m) && StopFacts(s, q)
    requires EndWork in Queued(s.queue, pid) ==> !s.running
    ensures StopMove(s, q, m) && StopFacts(m.sh, m.q)
  {
    match pt
    case WorkHead =>
    case Make =>
    case LoadTest =>
    case LoadDivide =>
    case TruckHead =>
    case TruckWait =>
    case TruckGot(_) =>
    case DispHead =>
    case DispRetry =>
    case ExprHead =>
    case ExprWait =>
    case MonHead =>
    case _ =>
  }

  /** The other steps read neither flag. */
  lemma BlindStop(s: Memory, q: Proc, m: Move)
    requires m.sh.running == s.running && m.sh.log.swept == s.log.swept && StopFacts(s, q) && Flows(q, m)
    requires Place(m.q.pc) == Place(q.pc) || Place(q.pc).WantBelt? || Place(q.pc).WantDock? || AtToken(Place(q.pc))
    ensures StopMove(s, q, m) && StopFacts(m.sh, m.q)
    ensures Place(q.pc).WantBelt? ==> !Committed(m.q)
  {
  }

  ghost predicate StopKept(s: State, pid: int, m: Move)
    requires pid in s.procs
  {
    var q := s.procs[pid];
    StopMove(s.sh, q, m) && StopFacts(m.sh, m.q) && (Committed(m.q) ==> m.q.slot == q.slot)
  }

  lemma HoldStop(s: State, pid: int, c: Choice, m: Move)
    requires BaseOk(s) && pid in s.procs && !s.procs[pid].pc.At? && StopFacts(s.sh, s.procs[pid])
    requires HoldStep(s.sh, pid, s.procs[pid], c) == Some(m) && Flows(s.procs[pid], m)
    ensures StopKept(s, pid, m)
  {
    var q := s.procs[pid];
    assert ProcOk(q);
    hide SessionBody, FloorBody, LoaderBody, TruckBody, LoginStage, RelayStep, ProcOk, BaseOk, StopMove, StopFacts,
      Committed, Flows, OffFloor, Guarded;
    if q.pc.DoBelt? {
      var op, v := q.pc.bop, q.pc.seenBelt;
      if SessionOp(op) {
        SessionShape(s.sh, pid, q, op, v, m);
      } else {
        FloorShape(s.sh, q, op, v, m);
        FloorLog(s.sh, q, op, v, m);
      }
    } else if q.pc.DoDock? {
      var op, d := q.pc.dop, q.pc.seenDock;
      if op.Load? || op.Batch? {
        LoaderShape(s.sh, q, op, d, c, m);
      } else {
        TruckShape(s.sh, pid, q, op, d, c, m);
      }
    } else if Logging(q.pc) {
      LoginShape(s.sh, pid, q, m);
    } else {
      RelayShape(s.sh, q, m);
    }
    BlindStop(s.sh, q, m);
  }

  lemma FloorLog(s: Memory, q: Proc, op: BeltOp, v: Belt, m: Move)
    requires FloorBody(s, q, op, v) == Some(m)
    ensures m.sh.log.swept == s.log.swept
  {
  }

  lemma PointStop(s: State, pid: int, c: Choice, m: Move)
    requires BaseOk(s) && pid in s.procs && s.procs[pid].pc.At? && StopFacts(s.sh, s.procs[pid])
    requires EndWork in Queued(s.sh.queue, pid) ==> !s.sh.running
    requires PointStep(s.sh, pid, s.procs[pid], s.procs[pid].pc.point, c) == Some(m) && Flows(s.procs[pid], m)
    ensures StopKept(s, pid, m)
  {
    var q, pt := s.procs[pid], s.procs[pid].pc.point;
    assert ProcOk(q);
    hide TerminalStep, EnterStep, TokenStep, LocalStep, ProcOk, BaseOk, StopMove, StopFacts, Committed, Flows, Guarded;
    if AtTerminal(pt) {
      TerminalShape(s.sh, pid, q, pt, c, m);
      TerminalStop(s.sh, pid, q, pt, c, m);
    } else if pt.WantBelt? || pt.WantDock? {
      EnterShape(s.sh, q, pt, m);
      BlindStop(s.sh, q, m);
    } else if AtToken(pt) {
      TokenShape(s.sh, q, pt, c, m);
      BlindStop(s.sh, q, m);
    } else {
      LocalShape(s.sh, pid, q, pt, c, m);
      LocalStop(s.sh, pid, q, pt, c, m);
    }
  }

  /** Another process's step cannot make a committed process miss its message. */
  lemma ToldStays(s: State, pid: int, m: Move, t: int)
    requires BaseOk(s) && RegistryOk(s) && StopOk(s) && pid in s.procs && t in s.procs && t != pid
    requires StopMove(s.sh, s.procs[pid], m) && MailLaw(s.sh, pid, s.procs[pid], m)
    ensures Told(m.sh, t, s.procs[t])
  {
    var q, r := s.procs[pid], s.procs[t];
    assert ProcOk(r) && Told(s.sh, t, r) && ScanSees(q, t, r) && Entered(s.sh.belt.users, t, r) && StopFacts(s.sh, q) && t > 0;
    hide ProcOk, BaseOk, RegistryOk, StopOk;
    if Committed(r) && 0 <= r.slot < m.sh.log.swept {
      assert Queued(s.sh.queue, t) <= Queued(m.sh.queue, t);
      if r.slot >= s.sh.log.swept {
        assert Place(q.pc).i == r.slot;
      }
    }
  }

  lemma CommittedHasSlot(r: Proc)
    requires ProcOk(r) && Committed(r)
    ensures r.slot >= 0
  {
  }

  /** The mover itself: it keeps its message while committed, and commits only while running. */
  lemma MoverTold(s: State, pid: int, m: Move)
    requires StopOk(s) && pid in s.procs && StopKept(s, pid, m) && MailLaw(s.sh, pid, s.procs[pid], m)
    ensures Told(m.sh, pid, m.q)
  {
    var q := s.procs[pid];
    assert Told(s.sh, pid, q) && StopFacts(s.sh, q);
    if Committed(m.q) && s.sh.running {
      assert s.sh.log.swept == 0 && !Place(q.pc).StopSend? && !Place(q.pc).StopScan?;
    } else if Committed(m.q) {
      assert Committed(q) && !Receives(q, m);
      assert Queued(s.sh.queue, pid) <= Queued(m.sh.queue, pid);
    }
  }

  /** What a scan has read stays true: a slot keeps its process while that is committed. */
  lemma ScansStay(s: State, pid: int, m: Move, z: int, t: int)
    requires BaseOk(s) && RegistryOk(s) && StopOk(s) && pid in s.procs && StopKept(s, pid, m)
    requires z in s.procs && t in s.procs
    ensures var procs' := s.procs[pid := m.q]; ScanSees(procs'[z], t, procs'[t])
  {
    assert ScanSees(s.procs[z], t, s.procs[t]) && StopFacts(s.sh, s.procs[z]) && StopFacts(s.sh, s.procs[pid]);
    assert ProcOk(s.procs[t]) && Entered(s.sh.belt.users, t, s.procs[t]);
    hide BaseOk, RegistryOk, StopOk, ProcOk;
    var q := s.procs[pid];
    if z == t == pid {
    } else if z == pid {
      if Place(m.q.pc).StopSend? && Place(m.q.pc) != Place(q.pc) && Committed(s.procs[t]) {
        CommittedHasSlot(s.procs[t]);
      }
    } else if t == pid && Committed(m.q) && !Committed(q) {
      assert s.sh.running;
    }
  }

  lemma StopJoin(s: State, pid: int, m: Move)
    requires BaseOk(s) && RegistryOk(s) && StopOk(s) && pid in s.procs
    requires StopKept(s, pid, m) && MailLaw(s.sh, pid, s.procs[pid], m)
    ensures StopOk(State(m.sh, s.procs[pid := m.q]))
  {
    var s', q := State(m.sh, s.procs[pid := m.q]), s.procs[pid];
    assert StopFacts(s.sh, q) && (s.sh.log.swept > 0 ==> !s.sh.running);
    forall p | p in s'.procs
      ensures StopFacts(s'.sh, s'.procs[p]) && Told(s'.sh, p, s'.procs[p])
    {
      if p == pid {
        MoverTold(s, pid, m);
      } else {
        ToldStays(s, pid, m, p);
        assert StopFacts(s.sh, s.procs[p]);
      }
    }
    forall z, t | z in s'.procs && t in s'.procs
      ensures ScanSees(s'.procs[z], t, s'.procs[t])
    {
      ScansStay(s, pid, m, z, t);
    }
    hide BaseOk, RegistryOk, Told, ScanSees, Committed;
  }

  lemma StopAct(s: State, pid: int, c: Choice, m: Move)
    requires BaseOk(s) && RegistryOk(s) && StopOk(s) && pid in s.procs
    requires ProcStep(s.sh, pid, s.procs[pid], c) == Some(m)
    ensures StopOk(State(m.sh, s.procs[pid := m.q]))
  {
    assert ProcOk(s.procs[pid]) && StopFacts(s.sh, s.procs[pid]);
    assert EndWork in Queued(s.sh.queue, pid) ==> !s.sh.running;
    hide HoldStep, PointStep, BaseOk, RegistryOk, StopOk, ProcOk, Flows, StopFacts, MailLaw, Queued;
    ProcFlow(s.sh, pid, s.procs[pid], c, m);
    ProcMail(s.sh, pid, s.procs[pid], c, m);
    if s.procs[pid].pc.At? {
      PointStop(s, pid, c, m);
    } else {
      HoldStop(s, pid, c, m);
    }
    StopJoin(s, pid, m);
  }

  lemma StepStops(s: Memory, pid: int, q: Proc, c: Choice)
    requires ProcStep(s, pid, q, c).Some?
    ensures ProcStep(s, pid, q, c).value.sh.running ==> s.running
    ensures ProcStep(s, pid, q, c).value.sh.log.swept >= s.log.swept
  {
    hide HoldStep, PointStep;
    if q.pc.At? {
      PointStops(s, pid, q, c);
    } else {
      HoldStops(s, pid, q, c);
    }
  }

  lemma PointStops(s: Memory, pid: int, q: Proc, c: Choice)
    requires q.pc.At? && PointStep(s, pid, q, q.pc.point, c).Some?
    ensures PointStep(s, pid, q, q.pc.point, c).value.sh.running ==> s.running
    ensures PointStep(s, pid, q, q.pc.point, c).value.sh.log.swept >= s.log.swept
  {
    hide TerminalStep, EnterStep, TokenStep, LocalStep;
    if AtTerminal(q.pc.point) {
      PromptStops(s, pid, q, q.pc.point, c);
    } else {
      OtherStops(s, pid, q, q.pc.point, c);
    }
  }

  lemma PromptStops(s: Memory, pid: int, q: Proc, pt: Point, c: Choice)
    requires AtTerminal(pt) && TerminalStep(s, pid, q, pt, c).Some?
    ensures TerminalStep(s, pid, q, pt, c).value.sh.running ==> s.running
    ensures TerminalStep(s, pid, q, pt, c).value.sh.log.swept >= s.log.swept
  {
    hide Send, HasFlag, User;
  }

  lemma OtherStops(s: Memory, pid: int, q: Proc, pt: Point, c: Choice)
    requires !AtTerminal(pt) && PointStep(s, pid, q, pt, c).Some?
    ensures PointStep(s, pid, q, pt, c).value.sh.running == s.running
    ensures PointStep(s, pid, q, pt, c).value.sh.log.swept == s.log.swept
  {
    hide TerminalStep, LocalStep;
    if !pt.WantBelt? && !pt.WantDock? && !AtToken(pt) {
      LocalStops(s, pid, q, pt, c);
    }
  }

  lemma LocalStops(s: Memory, pid: int, q: Proc, pt: Point, c: Choice)
    requires LocalStep(s, pid, q, pt, c).Some?
    ensures LocalStep(s, pid, q, pt, c).value.sh.running == s.running
    ensures LocalStep(s, pid, q, pt, c).value.sh.log.swept == s.log.swept
  {
  }

  lemma HoldStops(s: Memory, pid: int, q: Proc, c: Choice)
    requires !q.pc.At? && HoldStep(s, pid, q, c).Some?
    ensures HoldStep(s, pid, q, c).value.sh.running == s.running && HoldStep(s, pid, q, c).value.sh.log.swept == s.log.swept
  {
    hide BeltRing.Push, BeltRing.Pop, LoginSlot, Ledger.LoadPackage, Ledger.LoadBatch;
  }
}
