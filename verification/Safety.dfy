/** The invariant of the whole warehouse and its preservation over every run. */
module Safety {
  import opened Shared
  import opened Counting
  import opened SessionTable
  import opened Docking
  import BeltRing
  import Ledger
  import opened Protocol
  import opened Structure
  import opened Exclusion
  import opened Floor
  import opened Registry
  import opened Yard
  import opened Accounts
  import opened Rejection
  import opened Shutdown
  import opened Programs

  ghost predicate Inv(s: State) {
    BaseOk(s) && FloorOk(s) && RegistryOk(s) && YardOk(s) && AccountsOk(s) && RejectOk(s) && StopOk(s) && ProgramsOk(s)
  }

  predicate Newborn(q: Proc) {
    q.pc == At(WantBelt(Login)) && q.slot == -1 && q.pkg == [] && q.rejects == {} && NameFits(q.kind, q.name)
  }

  lemma InitInv(capacity: nat)
    requires capacity > 0
    ensures Inv(Init(capacity))
  {
    BeltRing.EmptyRingOk(capacity);
  }

  lemma ForkCounts(s: State, p: int, q: Proc)
    requires BaseOk(s) && FloorOk(s) && p !in s.procs && p > 0 && Newborn(q)
    ensures BaseOk(s.(procs := s.procs[p := q])) && FloorOk(s.(procs := s.procs[p := q]))
  {
    CountUpdate(s.procs, p, q, BeltHolder);
    CountUpdate(s.procs, p, q, DockHolder);
    CountUpdate(s.procs, p, q, OwesEmpty);
    CountUpdate(s.procs, p, q, OwesFull);
    CountUpdate(s.procs, p, q, Registered);
    hide BeltRing.History, WorkerMade;
  }

  lemma ForkRegistry(s: State, p: int, q: Proc)
    requires RegistryOk(s) && p !in s.procs && Newborn(q)
    ensures RegistryOk(s.(procs := s.procs[p := q]))
  {
    hide Busy, Stored;
    var procs' := s.procs[p := q];
    forall i | 0 <= i < |s.sh.belt.users| && s.sh.belt.users[i].active
      ensures exists r :: HeldBy(procs', i, r)
    {
      var r :| HeldBy(s.procs, i, r);
      assert HeldBy(procs', i, r);
    }
  }

  lemma ForkYard(s: State, p: int, q: Proc)
    requires YardOk(s) && RejectOk(s) && p !in s.procs && Newborn(q)
    ensures YardOk(s.(procs := s.procs[p := q])) && RejectOk(s.(procs := s.procs[p := q]))
  {
    hide Ledger.DockOk, RejectLaw;
    var s', t := s.(procs := s.procs[p := q]), s.sh.dock.truck.id;
    if s.sh.dock.truck.isPresent && s.sh.dock.called && Place(s.procs[t].pc).TruckWait? && Queued(s.sh.queue, t) == [] {
      var r :| Sends(s.procs, r, t);
      assert Sends(s'.procs, r, t);
    }
  }

  lemma ForkAccounts(s: State, p: int, q: Proc)
    requires AccountsOk(s) && p !in s.procs && Newborn(q)
    ensures AccountsOk(s.(procs := s.procs[p := q]))
  {
    hide Ids, Ledger.BeltIds;
    var procs' := s.procs[p := q];
    if s.sh.log.hand != [] {
      var r :| HeldSomewhere(s.procs, r);
      assert HeldSomewhere(procs', r);
    }
  }

  lemma ForkStop(s: State, p: int, q: Proc)
    requires StopOk(s) && ProgramsOk(s) && p !in s.procs && Newborn(q)
    ensures var s' := s.(procs := s.procs[p := q]); StopOk(s') && ProgramsOk(s')
  {
    NewbornFacts(s.sh, p, q);
    hide Committed, Stopping, ProgramPC, Newborn;
  }

  lemma NewbornFacts(sh: Memory, p: int, q: Proc)
    requires Newborn(q)
    ensures ProgramFacts(sh, q) && StopFacts(sh, q) && Told(sh, p, q) && !Committed(q) && !Place(q.pc).StopSend?
  {
  }

  lemma HaltStop(s: State)
    requires StopOk(s) && AccountsOk(s) && ProgramsOk(s)
    ensures var s' := s.(sh := s.sh.(running := false)); StopOk(s') && AccountsOk(s') && ProgramsOk(s')
  {
    hide ProgramPC, Ids, Ledger.BeltIds, Committed, Stopping, Holding;
  }

  lemma HaltBelt(s: State)
    requires BaseOk(s) && FloorOk(s) && RegistryOk(s)
    ensures var s' := s.(sh := s.sh.(running := false)); BaseOk(s') && FloorOk(s') && RegistryOk(s')
  {
    hide ProcOk, BeltRing.History, WorkerMade, Entered, StageOk, Apart, HeldBy;
  }

  lemma HaltDock(s: State)
    requires YardOk(s) && RejectOk(s)
    ensures var s' := s.(sh := s.sh.(running := false)); YardOk(s') && RejectOk(s')
  {
    hide Ledger.DockOk, Docks, RejectLaw, Holding;
  }

  lemma HaltInv(s: State)
    requires Inv(s)
    ensures Inv(s.(sh := s.sh.(running := false)))
  {
    hide BaseOk, FloorOk, RegistryOk, YardOk, AccountsOk, RejectOk, StopOk, ProgramsOk;
    HaltBelt(s);
    HaltDock(s);
    HaltStop(s);
  }

  lemma ActInv(s: State, pid: int, c: Choice, m: Move)
    requires Inv(s) && pid in s.procs && ProcStep(s.sh, pid, s.procs[pid], c) == Some(m)
    ensures Inv(State(m.sh, s.procs[pid := m.q])) && |m.sh.belt.ring.slots| == |s.sh.belt.ring.slots|
  {
    hide BaseOk, FloorOk, RegistryOk, AccountsOk, RejectOk, StopOk, ProgramsOk, ProcStep, BeltItem, Ledger.DockOk, OwnerOk, PendingOk;
    if Place(s.procs[pid].pc) == WantDock(Load) {
      HeldIsLoadable(s, pid);
    }
    BaseAct(s, pid, c, m);
    FloorAct(s, pid, c, m);
    RegistryAct(s, pid, c, m);
    YardAct(s, pid, c, m);
    AccountsAct(s, pid, c, m);
    RejectAct(s, pid, c, m);
    StopAct(s, pid, c, m);
    ProgramsAct(s, pid, c, m);
  }

  lemma HeldIsLoadable(s: State, pid: int)
    requires FloorOk(s) && AccountsOk(s) && pid in s.procs && Place(s.procs[pid].pc) == WantDock(Load)
    ensures forall x :: x in s.procs[pid].pkg ==> BeltItem(ItemOf(x)) && x.id > 0
  {
    hide FloorOk, Place, Ids, Ledger.BeltIds;
    HeldIsBeltItem(s, pid);
    forall x | x in s.procs[pid].pkg
      ensures x.id > 0
    {
      assert BeltItem(ItemOf(x));
    }
  }

  lemma StepInv(s: State, l: Label)
    requires Inv(s) && Step(s, l).Some?
    ensures Inv(Step(s, l).value) && |Step(s, l).value.sh.belt.ring.slots| == |s.sh.belt.ring.slots|
  {
    hide Inv, ProcStep;
    match l
    case Act(pid, c) =>
      ActInv(s, pid, c, ProcStep(s.sh, pid, s.procs[pid], c).value);
    case Fork(pid, kind, name, role, quota) =>
      ForkInv(s, pid, Proc(kind, name, role, quota, At(WantBelt(Login)), -1, [], {}));
    case Halt =>
      HaltInv(s);
  }

  lemma ForkInv(s: State, p: int, q: Proc)
    requires Inv(s) && p !in s.procs && p > 0 && Newborn(q)
    ensures Inv(s.(procs := s.procs[p := q]))
  {
    hide BaseOk, FloorOk, RegistryOk, YardOk, AccountsOk, RejectOk, StopOk, ProgramsOk;
    ForkCounts(s, p, q);
    ForkRegistry(s, p, q);
    ForkYard(s, p, q);
    ForkAccounts(s, p, q);
    ForkStop(s, p, q);
  }

  /** Every state of every run satisfies the invariant. */
  lemma {:induction false} RunInv(capacity: nat, ls: seq<Label>)
    requires capacity > 0 && Exec(Init(capacity), ls).Some?
    ensures Inv(Exec(Init(capacity), ls).value) && |Exec(Init(capacity), ls).value.sh.belt.ring.slots| == capacity
  {
    hide Inv, Step;
    if ls == [] {
      InitInv(capacity);
    } else {
      RunInv(capacity, ls[..|ls| - 1]);
      StepInv(Exec(Init(capacity), ls[..|ls| - 1]).value, ls[|ls| - 1]);
    }
  }

  lemma ReachableInv(s: State, capacity: nat)
    requires Reachable(s, capacity)
    ensures Inv(s) && |s.sh.belt.ring.slots| == capacity > 0
  {
    hide Inv, Exec;
    var ls :| Exec(Init(capacity), ls) == Some(s);
    RunInv(capacity, ls);
  }
}
