/** Who can command what: the rights that the terminal checks are those the process logged in with. */
module CommandTheorems {
  import opened Shared
  import opened SessionTable
  import opened Protocol
  import opened Structure
  import opened Floor
  import opened Registry
  import opened Yard
  import opened Accounts
  import opened Rejection
  import opened Shutdown
  import opened Programs
  import opened Safety
  import opened Winding

  /** The role in the slot of a process at the terminal's prompt is its own. */
  lemma OwnRole(s: State, capacity: nat, pid: int)
    requires Reachable(s, capacity) && pid in s.procs && s.procs[pid].pc == At(TermIdle)
    ensures User(s.sh.belt.users, s.procs[pid].slot).role == s.procs[pid].role
  {
    hide Reachable, FloorOk, YardOk, AccountsOk, RejectOk, StopOk, Stored, Busy;
    ReachableInv(s, capacity);
    assert ProcOk(s.procs[pid]) && Entered(s.sh.belt.users, pid, s.procs[pid]);
  }

  lemma StopsAtPrompt(s: Memory, pid: int, q: Proc, c: Choice, m: Move)
    requires s.running && ProcStep(s, pid, q, c) == Some(m) && !m.sh.running
    ensures q.pc == At(TermIdle) && SysAdmin in User(s.belt.users, q.slot).role
  {
    hide HoldStep;
    if q.pc.At? {
      PointStopsAtPrompt(s, pid, q, c, m);
    } else {
      HoldStops(s, pid, q, c);
      assert false;
    }
  }

  lemma PointStopsAtPrompt(s: Memory, pid: int, q: Proc, c: Choice, m: Move)
    requires s.running && q.pc.At? && PointStep(s, pid, q, q.pc.point, c) == Some(m) && !m.sh.running
    ensures q.pc == At(TermIdle) && SysAdmin in User(s.belt.users, q.slot).role
  {
  }

  /** The system is stopped only by the master or by a process that logged in as administrator. */
  lemma OnlyAdminStops(s: State, capacity: nat, l: Label)
    requires Reachable(s, capacity) && s.sh.running && Step(s, l).Some? && !Step(s, l).value.sh.running
    ensures l.Halt? || (l.Act? && s.procs[l.pid].pc == At(TermIdle) && SysAdmin in s.procs[l.pid].role)
  {
    hide Reachable, ProcStep;
    if l.Act? {
      StopsAtPrompt(s.sh, l.pid, s.procs[l.pid], l.choice, ProcStep(s.sh, l.pid, s.procs[l.pid], l.choice).value);
      OwnRole(s, capacity, l.pid);
    }
  }

  /** `vip` and `depart` go ahead exactly for operators and administrators, `depart` moreover only
      with a truck at the dock; otherwise the terminal goes back to the head of its loop. */
  lemma CommandsNeedRights(s: State, capacity: nat, pid: int, c: Choice)
    requires Reachable(s, capacity) && pid in s.procs && s.procs[pid].pc == At(TermIdle)
    requires c.VipCommand? || c.DepartCommand?
    ensures var q := s.procs[pid];
      var m := ProcStep(s.sh, pid, q, c);
      && m.Some? && m.value.sh == s.sh
      && m.value.q == q.(pc := At(
           if !(Operator in q.role || SysAdmin in q.role) then TermHead
           else if c.VipCommand? then VipScan(0)
           else if s.sh.dock.truck.isPresent then DepartId
           else TermHead))
  {
    hide Reachable;
    OwnRole(s, capacity, pid);
    TwoFlags(s.procs[pid].role, Operator, SysAdmin);
  }

  lemma TwoFlags(mask: RoleMask, a: Role, b: Role)
    ensures HasFlag(mask, {a, b}) <==> a in mask || b in mask
  {
    assert a in mask ==> a in mask * {a, b};
    assert b in mask ==> b in mask * {a, b};
  }

  /** Express orders in a queue. */
  function Pending(sigs: seq<Signal>): nat {
    if sigs == [] then 0 else One(sigs[0] == ExpressLoad) + Pending(sigs[1..])
  }

  lemma {:induction false} PendingAppend(sigs: seq<Signal>, sig: Signal)
    ensures Pending(sigs + [sig]) == Pending(sigs) + One(sig == ExpressLoad)
  {
    if sigs == [] {
      assert sigs + [sig] == [sig];
    } else {
      PendingAppend(sigs[1..], sig);
      assert (sigs + [sig])[1..] == sigs[1..] + [sig];
    }
  }

  lemma PendingSend(queue: map<int, seq<Signal>>, to: int, sig: Signal, e: int)
    requires e > 0
    ensures Pending(Queued(Send(queue, to, sig), e)) == Pending(Queued(queue, e)) + One(to == e && sig == ExpressLoad)
  {
    PendingAppend(Queued(queue, to), sig);
  }

  /** The step sends `e` an express order; the step of `e` begins a batch. */
  predicate Orders(q: Proc, e: int) { q.pc == At(VipSend(e)) }

  predicate Begins(q: Proc, m: Move) { q.pc == At(ExprWait) && m.q.pc == At(WantDock(Batch)) }

  /** No batch without an order: what is begun comes out of the queue, what is queued was ordered.
      Conversely no order is lost, unless a truck takes it. */
  predicate Covered(s: Memory, pid: int, q: Proc, m: Move, e: int) {
    var before, after := Pending(Queued(s.queue, e)) + One(Orders(q, e)), Pending(Queued(m.sh.queue, e)) + One(pid == e && Begins(q, m));
    after <= before && (q.pc != At(TruckWait) || pid != e ==> after == before)
  }

  lemma TerminalCovered(s: Memory, pid: int, q: Proc, pt: Point, c: Choice, m: Move, e: int)
    requires e > 0 && q.pc == At(pt) && AtTerminal(pt) && TerminalStep(s, pid, q, pt, c) == Some(m)
    ensures Covered(s, pid, q, m, e)
  {
    hide Pending;
    match pt
    case DepartSend(to) => PendingSend(s.queue, to, Departure, e);
    case StopSend(_, to) => PendingSend(s.queue, to, EndWork, e);
    case VipSend(to) => PendingSend(s.queue, to, ExpressLoad, e);
    case _ =>
  }

  lemma LocalCovered(s: Memory, pid: int, q: Proc, pt: Point, c: Choice, m: Move, e: int)
    requires q.pc == At(pt) && LocalStep(s, pid, q, pt, c) == Some(m)
    ensures Covered(s, pid, q, m, e)
  {
    match pt
    case TruckWait =>
    case ExprWait =>
    case _ =>
  }

  lemma RelayCovered(s: Memory, pid: int, q: Proc, m: Move, e: int)
    requires e > 0 && RelayStep(s, q) == Some(m)
    ensures Covered(s, pid, q, m, e)
  {
    hide Pending;
    if q.pc.SendDock? {
      PendingSend(s.queue, q.pc.to, Departure, e);
    }
  }

  lemma SilentCovered(s: Memory, pid: int, q: Proc, m: Move, e: int)
    requires m.sh.queue == s.queue && q.pc != At(ExprWait) && !Orders(q, e)
    ensures Covered(s, pid, q, m, e)
  {
    hide Pending;
  }

  lemma StepCovered(s: Memory, pid: int, q: Proc, c: Choice, m: Move, e: int)
    requires e > 0 && ProcOk(q) && ProcStep(s, pid, q, c) == Some(m)
    ensures Covered(s, pid, q, m, e)
  {
    hide SessionBody, FloorBody, LoaderBody, TruckBody, LoginStage, RelayStep, ProcOk, Guarded, OffFloor, Covered,
      TerminalStep, EnterStep, TokenStep, LocalStep, Place;
    if q.pc.At? {
      var pt := q.pc.point;
      if AtTerminal(pt) {
        TerminalCovered(s, pid, q, pt, c, m, e);
      } else if pt.WantBelt? || pt.WantDock? {
        EnterShape(s, q, pt, m);
        SilentCovered(s, pid, q, m, e);
      } else if AtToken(pt) {
        TokenShape(s, q, pt, c, m);
        SilentCovered(s, pid, q, m, e);
      } else {
        LocalCovered(s, pid, q, pt, c, m, e);
      }
    } else if q.pc.DoBelt? {
      if SessionOp(q.pc.bop) {
        SessionShape(s, pid, q, q.pc.bop, q.pc.seenBelt, m);
      } else {
        FloorShape(s, q, q.pc.bop, q.pc.seenBelt, m);
      }
      SilentCovered(s, pid, q, m, e);
    } else if q.pc.DoDock? {
      if q.pc.dop.Load? || q.pc.dop.Batch? {
        LoaderShape(s, q, q.pc.dop, q.pc.seenDock, c, m);
      } else {
        TruckShape(s, pid, q, q.pc.dop, q.pc.seenDock, c, m);
      }
      SilentCovered(s, pid, q, m, e);
    } else if Logging(q.pc) {
      LoginShape(s, pid, q, m);
      SilentCovered(s, pid, q, m, e);
    } else {
      RelayCovered(s, pid, q, m, e);
    }
  }

  /** Whether the step `l` from `s` orders, or begins, a batch of process `e`. */
  predicate OrderStep(s: State, l: Label, e: int) {
    l.Act? && l.pid in s.procs && Orders(s.procs[l.pid], e)
  }

  predicate BeginStep(s: State, l: Label, e: int) {
    && l.Act? && l.pid == e && e in s.procs && ProcStep(s.sh, e, s.procs[e], l.choice).Some?
    && Begins(s.procs[e], ProcStep(s.sh, e, s.procs[e], l.choice).value)
  }

  /** How many batches of `e` a run from `s` has ordered, and how many it has begun. */
  function Ordered(s: State, ls: seq<Label>, e: int): nat
    requires Exec(s, ls).Some?
  {
    if ls == [] then 0
    else Ordered(s, ls[..|ls| - 1], e) + One(OrderStep(Exec(s, ls[..|ls| - 1]).value, ls[|ls| - 1], e))
  }

  function Begun(s: State, ls: seq<Label>, e: int): nat
    requires Exec(s, ls).Some?
  {
    if ls == [] then 0
    else Begun(s, ls[..|ls| - 1], e) + One(BeginStep(Exec(s, ls[..|ls| - 1]).value, ls[|ls| - 1], e))
  }

  lemma LabelCovered(s: State, l: Label, e: int)
    requires Inv(s) && e > 0 && Step(s, l).Some?
    ensures Pending(Queued(Step(s, l).value.sh.queue, e)) + One(BeginStep(s, l, e)) <=
            Pending(Queued(s.sh.queue, e)) + One(OrderStep(s, l, e))
    ensures OfKind(s, e, Express) ==>
      Pending(Queued(Step(s, l).value.sh.queue, e)) + One(BeginStep(s, l, e)) ==
      Pending(Queued(s.sh.queue, e)) + One(OrderStep(s, l, e))
  {
    hide ProcStep, Pending, FloorOk, YardOk, AccountsOk, RejectOk, StopOk, RegistryOk;
    if l.Act? {
      assert ProcOk(s.procs[l.pid]) && ProgramFacts(s.sh, s.procs[l.pid]);
      StepCovered(s.sh, l.pid, s.procs[l.pid], l.choice, ProcStep(s.sh, l.pid, s.procs[l.pid], l.choice).value, e);
    }
  }

  /** Over every run: the express batches a process has begun and the orders still in its queue are
      no more than the `vip` orders that were sent to it. */
  lemma {:induction false} BatchesAreOrdered(capacity: nat, ls: seq<Label>, e: int)
    requires capacity > 0 && e > 0 && Exec(Init(capacity), ls).Some?
    ensures Begun(Init(capacity), ls, e) + Pending(Queued(Exec(Init(capacity), ls).value.sh.queue, e)) <= Ordered(Init(capacity), ls, e)
  {
    hide Inv, Step, BeginStep, OrderStep;
    if ls != [] {
      var before, l := ls[..|ls| - 1], ls[|ls| - 1];
      BatchesAreOrdered(capacity, before, e);
      RunInv(capacity, before);
      LabelCovered(Exec(Init(capacity), before).value, l, e);
    }
  }

  /** For an express process no order is lost: over every run, the orders sent to it are exactly the
      batches it has begun and the orders still in its queue. */
  lemma {:induction false} OrdersBecomeBatches(capacity: nat, ls: seq<Label>, e: int)
    requires capacity > 0 && e > 0 && Exec(Init(capacity), ls).Some? && OfKind(Exec(Init(capacity), ls).value, e, Express)
    ensures Begun(Init(capacity), ls, e) + Pending(Queued(Exec(Init(capacity), ls).value.sh.queue, e)) == Ordered(Init(capacity), ls, e)
  {
    hide Inv, Step, BeginStep, OrderStep;
    if ls != [] {
      var before, l := ls[..|ls| - 1], ls[|ls| - 1];
      RunInv(capacity, before);
      KindStays(Exec(Init(capacity), before).value, l, e, Express);
      OrdersBecomeBatches(capacity, before, e);
      LabelCovered(Exec(Init(capacity), before).value, l, e);
    }
  }
}
