/** Where a stopped warehouse comes to rest. */
module Quiescence {
  import opened Shared
  import opened Counting
  import opened Protocol
  import opened Structure
  import opened Exclusion
  import opened Floor
  import opened Registry
  import opened Yard
  import opened Accounts
  import opened Rejection
  import opened Shutdown
  import opened Programs
  import opened Safety
  import opened Paths
  import opened Stranding
  import opened Winding
  import BeltTheorems
  import ShutdownTheorems
  import Marooning

  /** Gone, or waiting for a semaphore that is zero. */
  predicate AtRest(sh: Memory, q: Proc) {
    || q.pc == At(Exited)
    || (q.pc == At(WaitFull) && sh.full == 0)
    || (q.pc == At(WaitEmpty) && sh.empty == 0)
  }

  /** No process can make a step, interruptions apart. */
  ghost predicate Still(s: State) {
    forall p, c :: p in s.procs && ProcStep(s.sh, p, s.procs[p], c).Some? ==> c.Interrupt?
  }

  function Proceed(pt: Point): (c: Choice)
    ensures !c.Interrupt?
  {
    if pt.Make? then Choice.Pack(ANY) else if pt.TermIdle? then Quit else Go
  }

  lemma TerminalProceeds(s: Memory, pid: int, q: Proc, pt: Point)
    requires q.pc == At(pt) && AtTerminal(pt)
    ensures ProcStep(s, pid, q, Proceed(pt)).Some?
  {
  }

  lemma PointProceeds(s: Memory, pid: int, q: Proc, pt: Point)
    requires q.pc == At(pt) && !AtTerminal(pt) && !pt.Crashed? && !AtRest(s, q)
    requires (pt.WantBelt? ==> s.beltMutex > 0) && (pt.WantDock? ==> s.dockMutex > 0)
    requires pt.TruckWait? || pt.ExprWait? ==> Queued(s.queue, pid) != []
    ensures ProcStep(s, pid, q, Proceed(pt)).Some?
  {
    match pt
    case WantBelt(_) =>
    case WantDock(_) =>
    case Make =>
    case _ =>
  }

  /** After a complete stop scan, as long as one process is not at rest, some process can move. */
  lemma SomeoneMoves(s: State, capacity: nat, p: int) returns (r: int, c: Choice)
    requires Reachable(s, capacity) && s.sh.log.swept >= MAX_USERS_SESSIONS && p in s.procs && !AtRest(s.sh, s.procs[p])
    ensures r in s.procs && !c.Interrupt? && ProcStep(s.sh, r, s.procs[r], c).Some?
  {
    hide Reachable, ProcStep, RegistryOk, AccountsOk, YardOk, RejectOk, StopOk, ProgramsOk, TokensOk, QueueOk, PackagesOk, AtRest, ProcOk, Fresh;
    ReachableInv(s, capacity);
    r := p;
    if !s.procs[p].pc.At? {
      c := BeltTheorems.HolderCanMove(s, capacity, p);
    } else {
      var pt := s.procs[p].pc.point;
      c := Proceed(pt);
      if pt.WantBelt? && s.sh.beltMutex == 0 {
        r := CountSome(s.procs, BeltHolder);
        c := BeltTheorems.HolderCanMove(s, capacity, r);
      } else if pt.WantDock? && s.sh.dockMutex == 0 {
        r := CountSome(s.procs, DockHolder);
        c := BeltTheorems.HolderCanMove(s, capacity, r);
      } else if AtTerminal(pt) {
        TerminalProceeds(s.sh, p, s.procs[p], pt);
      } else {
        if pt.TruckWait? || pt.ExprWait? {
          ShutdownTheorems.CompletedScanReachesAll(s, capacity, p);
        }
        PointProceeds(s.sh, p, s.procs[p], pt);
      }
    }
  }

  /** Once a stop scan is complete, the warehouse stands still exactly if every process has exited, is
      a dispatcher waiting on an empty belt, or a worker waiting on a full one; and it never does so
      with both kinds left behind. */
  lemma StillExactlyWhen(s: State, capacity: nat)
    requires Reachable(s, capacity) && s.sh.log.swept >= MAX_USERS_SESSIONS
    ensures Still(s) <==> forall p :: p in s.procs ==> AtRest(s.sh, s.procs[p])
    ensures Still(s) ==> forall p, r :: p in s.procs && r in s.procs ==> !(s.procs[p].pc == At(WaitFull) && s.procs[r].pc == At(WaitEmpty))
  {
    hide Reachable, ProcStep, AtRest;
    if Still(s) {
      forall p | p in s.procs
        ensures AtRest(s.sh, s.procs[p])
      {
        if !AtRest(s.sh, s.procs[p]) {
          var r, c := SomeoneMoves(s, capacity, p);
        }
      }
      forall p, r | p in s.procs && r in s.procs && s.procs[p].pc == At(WaitFull)
        ensures s.procs[r].pc != At(WaitEmpty)
      {
        if s.procs[r].pc == At(WaitEmpty) {
          var z, c := BeltTheorems.BeltNeverStuck(s, capacity, r, p);
        }
      }
    }
    if forall p :: p in s.procs ==> AtRest(s.sh, s.procs[p]) {
      forall p, c | p in s.procs && ProcStep(s.sh, p, s.procs[p], c).Some?
        ensures c.Interrupt?
      {
        RestIsBlocked(s.sh, p, s.procs[p], c);
      }
    }
  }

  lemma RestIsBlocked(s: Memory, pid: int, q: Proc, c: Choice)
    requires AtRest(s, q)
    ensures !c.Interrupt? ==> ProcStep(s, pid, q, c).None?
  {
    Blocked(s, pid, q, c);
  }

  lemma SweptStays(s: State, l: Label)
    requires Step(s, l).Some?
    ensures Step(s, l).value.sh.log.swept >= s.sh.log.swept
  {
    hide ProcStep;
    if l.Act? {
      StepStops(s.sh, l.pid, s.procs[l.pid], l.choice);
    }
  }

  /** From every stopped state a standstill is reached without interruptions or new processes. */
  lemma {:induction false} WindDown(a: State, s: State, capacity: nat) returns (s': State)
    requires Path(a, s) && Reachable(s, capacity) && !s.sh.running
    ensures Path(a, s') && Reachable(s', capacity) && Still(s') && s'.procs.Keys == s.procs.Keys && s'.sh.log.swept >= s.sh.log.swept
    decreases Total(s)
  {
    hide Path, Reachable, Inv, Total, ProcStep;
    s' := s;
    if !Still(s) {
      var p, c :| p in s.procs && ProcStep(s.sh, p, s.procs[p], c).Some? && !c.Interrupt?;
      var l := Act(p, c);
      ReachableInv(s, capacity);
      TotalStep(s, l);
      Onward(a, s, l);
      Extend(s, capacity, l);
      ShutdownTheorems.StopIsFinal(s, l);
      SweptStays(s, l);
      s' := WindDown(a, Step(s, l).value, capacity);
    }
  }

  /** The stop command does its work: from every reachable state with a complete scan the warehouse
      can be led to rest, and every run there without new processes is bounded, so that it comes to
      rest whatever the order of steps; at rest, all have exited but those who wait for a semaphore
      that is zero. */
  lemma StoppedComesToRest(s: State, capacity: nat) returns (s': State)
    requires Reachable(s, capacity) && s.sh.log.swept >= MAX_USERS_SESSIONS
    ensures Path(s, s') && Still(s') && s'.procs.Keys == s.procs.Keys && forall p :: p in s'.procs ==> AtRest(s'.sh, s'.procs[p])
    ensures forall ls :: ForkFree(ls) && Exec(s, ls).Some? ==> Acts(ls) <= Sum(s.procs, BoundOf)
    ensures forall ls :: ForkFree(ls) && Exec(s, ls).Some? && Still(Exec(s, ls).value) ==>
      forall p :: p in Exec(s, ls).value.procs ==> AtRest(Exec(s, ls).value.sh, Exec(s, ls).value.procs[p])
  {
    hide Path, Reachable, Still, AtRest, Exec;
    Stopped(s, capacity);
    Stay(s);
    s' := WindDown(s, s, capacity);
    StillExactlyWhen(s', capacity);
    forall ls | ForkFree(ls) && Exec(s, ls).Some?
      ensures Acts(ls) <= Sum(s.procs, BoundOf)
    {
      RunsEnd(s, capacity, ls);
    }
    forall ls | ForkFree(ls) && Exec(s, ls).Some? && Still(Exec(s, ls).value)
      ensures forall p :: p in Exec(s, ls).value.procs ==> AtRest(Exec(s, ls).value.sh, Exec(s, ls).value.procs[p])
    {
      RunSwept(s, ls);
      RunReaches(s, ls, capacity);
      StillExactlyWhen(Exec(s, ls).value, capacity);
    }
  }

  lemma Stopped(s: State, capacity: nat)
    requires Reachable(s, capacity) && s.sh.log.swept > 0
    ensures !s.sh.running
  {
    hide Reachable, BaseOk, FloorOk, RegistryOk, YardOk, AccountsOk, RejectOk, ProgramsOk;
    ReachableInv(s, capacity);
  }

  lemma {:induction false} RunSwept(s: State, ls: seq<Label>)
    requires Exec(s, ls).Some?
    ensures Exec(s, ls).value.sh.log.swept >= s.sh.log.swept
  {
    hide Step;
    if ls != [] {
      RunSwept(s, ls[..|ls| - 1]);
      SweptStays(Exec(s, ls[..|ls| - 1]).value, ls[|ls| - 1]);
    }
  }

  lemma RunReaches(s: State, ls: seq<Label>, capacity: nat)
    requires Reachable(s, capacity) && Exec(s, ls).Some?
    ensures Reachable(Exec(s, ls).value, capacity)
  {
    hide Exec;
    var ks :| Exec(Init(capacity), ks) == Some(s);
    ExecJoin(Init(capacity), ks, ls);
  }

  /** Both kinds of standstill occur after a complete stop command, with a belt of any size. */
  lemma StopCanLeaveBehind(capacity: nat) returns (s: State, s': State)
    requires capacity > 0
    ensures Reachable(s, capacity) && s.sh.log.swept == MAX_USERS_SESSIONS && Still(s) && 2 in s.procs && s.procs[2].pc == At(WaitFull)
    ensures Reachable(s', capacity) && s'.sh.log.swept == MAX_USERS_SESSIONS && Still(s') && 1 in s'.procs && s'.procs[1].pc == At(WaitEmpty)
  {
    hide Reachable, Still;
    s := StrandingHappens(capacity);
    assert forall p :: p in s.procs ==> p == 2 || p == 4;
    StillExactlyWhen(s, capacity);
    s' := Marooning.MarooningHappens(capacity);
    assert forall p :: p in s'.procs ==> p == 1 || p == 4;
    StillExactlyWhen(s', capacity);
  }
}
