/** After the stop the warehouse winds down: every process has a bounded number of steps left,
    whatever the others do, and so has the whole. */
module Winding {
  import opened Shared
  import opened Counting
  import opened Protocol
  import opened Structure
  import opened Exclusion
  import opened Floor
  import opened Registry
  import opened Yard
  import opened Accounts
  import opened Rejection
  import opened Shutdown
  import opened Programs
  import opened Safety
  import ShutdownTheorems

  /** The steps of process `p` in a run. */
  function StepsOf(ls: seq<Label>, p: int): nat {
    if ls == [] then 0 else StepsOf(ls[..|ls| - 1], p) + One(ActOf(ls[|ls| - 1], p))
  }

  predicate ActOf(l: Label, p: int) { l.Act? && l.pid == p }

  /** A process of this kind, unless it has not been started yet. */
  predicate OfKind(s: State, p: int, kind: Kind) {
    p in s.procs ==> s.procs[p].kind == kind
  }

  /** The steps that a process has left after the stop, also if it is still to be started. */
  function Left(s: State, p: int, kind: Kind): nat {
    Rank(kind, if p in s.procs then s.procs[p].pc else At(WantBelt(Login)))
  }

  lemma KindStays(s: State, l: Label, p: int, kind: Kind)
    requires Inv(s) && Step(s, l).Some? && OfKind(Step(s, l).value, p, kind)
    ensures OfKind(s, p, kind)
  {
    hide ProcStep, FloorOk, RegistryOk, AccountsOk, YardOk, RejectOk, StopOk, ProgramsOk;
    if l.Act? && l.pid == p {
      assert ProcOk(s.procs[p]);
      hide BaseOk, ProcOk;
      ProcGuarded(s.sh, p, s.procs[p], l.choice, ProcStep(s.sh, p, s.procs[p], l.choice).value);
    }
  }

  /** A step of the process itself brings it closer to its end. */
  lemma OwnStepWinds(s: State, p: int, c: Choice, m: Move)
    requires Inv(s) && !s.sh.running && p in s.procs && ProcStep(s.sh, p, s.procs[p], c) == Some(m)
    ensures m.q.kind == s.procs[p].kind && Rank(m.q.kind, m.q.pc) < Rank(s.procs[p].kind, s.procs[p].pc)
  {
    hide ProcStep, Rank, ProgramPC, FloorOk, AccountsOk, YardOk, RejectOk, StopOk;
    assert ProcOk(s.procs[p]) && ProgramFacts(s.sh, s.procs[p]);
    hide BaseOk, ProcOk;
    WindsDown(s.sh, p, s.procs[p], c, m);
  }

  lemma WindStep(s: State, l: Label, p: int, kind: Kind)
    requires Inv(s) && !s.sh.running && OfKind(s, p, kind) && Step(s, l).Some?
    ensures Left(Step(s, l).value, p, kind) + One(ActOf(l, p)) <= Left(s, p, kind)
  {
    hide ProcStep, Rank, Inv;
    if l.Act? && l.pid == p {
      OwnStepWinds(s, p, l.choice, ProcStep(s.sh, p, s.procs[p], l.choice).value);
    }
  }

  lemma {:induction false} RunKeeps(s: State, ls: seq<Label>)
    requires Inv(s) && Exec(s, ls).Some?
    ensures Inv(Exec(s, ls).value)
  {
    hide Inv, Step;
    if ls != [] {
      RunKeeps(s, ls[..|ls| - 1]);
      StepInv(Exec(s, ls[..|ls| - 1]).value, ls[|ls| - 1]);
    }
  }

  /** Over any run after the stop, whatever the other processes do: the steps a process has made and
      those it has left add up to no more than it had left at the start. */
  lemma {:induction false} RunBound(s: State, ls: seq<Label>, p: int, kind: Kind)
    requires Inv(s) && !s.sh.running && Exec(s, ls).Some? && OfKind(Exec(s, ls).value, p, kind)
    ensures OfKind(s, p, kind) && StepsOf(ls, p) + Left(Exec(s, ls).value, p, kind) <= Left(s, p, kind)
  {
    hide Inv, Step, Left;
    if ls != [] {
      var before, l := ls[..|ls| - 1], ls[|ls| - 1];
      var s1 := Exec(s, before).value;
      RunKeeps(s, before);
      ShutdownTheorems.RunStopIsFinal(s, before);
      KindStays(s1, l, p, kind);
      RunBound(s, before, p, kind);
      WindStep(s1, l, p, kind);
    }
  }

  lemma LeftAtMost(s: State, p: int, kind: Kind)
    requires ProgramsOk(s) && OfKind(s, p, kind)
    ensures Left(s, p, kind) <= Bound(kind)
  {
    hide Rank, ProgramPC;
    if p in s.procs {
      assert ProgramFacts(s.sh, s.procs[p]);
      RankAtMost(kind, s.procs[p].pc);
    } else {
      NewbornRank(kind);
    }
  }

  lemma NewbornRank(kind: Kind)
    ensures Rank(kind, At(WantBelt(Login))) <= Bound(kind)
  {
  }

  /** After the stop a worker makes at most 26 more steps, a truck 18, a terminal 636, and a
      dispatcher, express process or monitor 12, wherever it was at the stop, and also if it is
      started only after it. */
  lemma StepsBounded(s: State, capacity: nat, ls: seq<Label>, p: int)
    requires Reachable(s, capacity) && !s.sh.running && Exec(s, ls).Some? && p in Exec(s, ls).value.procs
    ensures StepsOf(ls, p) <= Bound(Exec(s, ls).value.procs[p].kind)
  {
    hide Reachable, Exec, FloorOk, RegistryOk, AccountsOk, YardOk, RejectOk, StopOk, BaseOk, ProgramsOk, Left;
    ReachableInv(s, capacity);
    var kind := Exec(s, ls).value.procs[p].kind;
    RunBound(s, ls, p, kind);
    LeftAtMost(s, p, kind);
  }

  /** The steps of all processes in a run. */
  function Acts(ls: seq<Label>): nat {
    if ls == [] then 0 else Acts(ls[..|ls| - 1]) + One(ls[|ls| - 1].Act?)
  }

  predicate ForkFree(ls: seq<Label>) {
    forall i :: 0 <= i < |ls| ==> !ls[i].Fork?
  }

  function RankOf(q: Proc): nat { Rank(q.kind, q.pc) }

  function BoundOf(q: Proc): nat { Bound(q.kind) }

  /** The steps that all processes together have left after the stop. */
  ghost function Total(s: State): nat {
    Sum(s.procs, RankOf)
  }

  lemma TotalStep(s: State, l: Label)
    requires Inv(s) && !s.sh.running && Step(s, l).Some? && !l.Fork?
    ensures Total(Step(s, l).value) + One(l.Act?) <= Total(s)
  {
    hide ProcStep, Rank, Inv;
    if l.Act? {
      var m := ProcStep(s.sh, l.pid, s.procs[l.pid], l.choice).value;
      OwnStepWinds(s, l.pid, l.choice, m);
      SumUpdate(s.procs, l.pid, m.q, RankOf);
    }
  }

  lemma {:induction false} RunTotal(s: State, ls: seq<Label>)
    requires Inv(s) && !s.sh.running && Exec(s, ls).Some? && ForkFree(ls)
    ensures Acts(ls) + Total(Exec(s, ls).value) <= Total(s)
  {
    hide Inv, Step, Total;
    if ls != [] {
      var before, l := ls[..|ls| - 1], ls[|ls| - 1];
      RunTotal(s, before);
      RunKeeps(s, before);
      ShutdownTheorems.RunStopIsFinal(s, before);
      TotalStep(Exec(s, before).value, l);
    }
  }

  lemma TotalAtMost(s: State)
    requires ProgramsOk(s)
    ensures Total(s) <= Sum(s.procs, BoundOf)
  {
    hide Rank, ProgramPC;
    forall p | p in s.procs
      ensures RankOf(s.procs[p]) <= BoundOf(s.procs[p])
    {
      assert ProgramFacts(s.sh, s.procs[p]);
      RankAtMost(s.procs[p].kind, s.procs[p].pc);
    }
    SumAtMost(s.procs, RankOf, BoundOf);
  }

  /** No run goes on for ever after the stop: without new processes it has at most the sum of the
      processes' bounds. */
  lemma RunsEnd(s: State, capacity: nat, ls: seq<Label>)
    requires Reachable(s, capacity) && !s.sh.running && Exec(s, ls).Some? && ForkFree(ls)
    ensures Acts(ls) <= Sum(s.procs, BoundOf)
  {
    hide Reachable, Exec, FloorOk, RegistryOk, AccountsOk, YardOk, RejectOk, StopOk, BaseOk, ProgramsOk;
    ReachableInv(s, capacity);
    RunTotal(s, ls);
    TotalAtMost(s);
  }
}
