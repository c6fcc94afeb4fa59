/** Runs from one state to another, without interrupted waits. */
module Paths {
  import opened Shared
  import opened Protocol

  predicate Interruption(l: Label) {
    l.Act? && l.choice.Interrupt?
  }

  predicate Uninterrupted(ls: seq<Label>) {
    forall i :: 0 <= i < |ls| ==> !Interruption(ls[i])
  }

  ghost predicate Path(a: State, b: State) {
    exists ls :: Uninterrupted(ls) && Exec(a, ls) == Some(b)
  }

  lemma {:induction false} ExecJoin(a: State, ls: seq<Label>, ks: seq<Label>)
    requires Exec(a, ls).Some?
    ensures Exec(a, ls + ks) == Exec(Exec(a, ls).value, ks)
  {
    hide Step;
    if ks == [] {
      assert ls + ks == ls;
    } else {
      var n := |ks| - 1;
      ExecJoin(a, ls, ks[..n]);
      assert (ls + ks)[..|ls + ks| - 1] == ls + ks[..n];
    }
  }

  lemma Stay(a: State)
    ensures Path(a, a)
  {
    assert Exec(a, []) == Some(a) && Uninterrupted([]);
  }

  lemma Onward(a: State, b: State, l: Label)
    requires Path(a, b) && Step(b, l).Some? && !Interruption(l)
    ensures Path(a, Step(b, l).value)
  {
    hide Step;
    var ls :| Uninterrupted(ls) && Exec(a, ls) == Some(b);
    assert (ls + [l])[..|ls + [l]| - 1] == ls;
    assert Exec(a, ls + [l]) == Step(b, l) && Uninterrupted(ls + [l]);
  }

  lemma PathReaches(a: State, b: State, capacity: nat)
    requires Reachable(a, capacity) && Path(a, b)
    ensures Reachable(b, capacity)
  {
    hide Exec;
    var ls :| Exec(Init(capacity), ls) == Some(a);
    var ks :| Uninterrupted(ks) && Exec(a, ks) == Some(b);
    ExecJoin(Init(capacity), ls, ks);
  }

  lemma Extend(s: State, capacity: nat, l: Label)
    requires Reachable(s, capacity) && Step(s, l).Some?
    ensures Reachable(Step(s, l).value, capacity)
  {
    hide Step;
    var ls :| Exec(Init(capacity), ls) == Some(s);
    assert (ls + [l])[..|ls + [l]| - 1] == ls;
    assert Exec(Init(capacity), ls + [l]) == Step(s, l);
  }

  /** The state after process `pid` has made the move `m`. */
  function After(s: State, pid: int, m: Move): State {
    State(m.sh, s.procs[pid := m.q])
  }

  lemma Go1(a: State, s: State, pid: int, c: Choice, m: Move)
    requires Path(a, s) && pid in s.procs && ProcStep(s.sh, pid, s.procs[pid], c) == Some(m) && !c.Interrupt?
    ensures Path(a, After(s, pid, m))
  {
    hide Path, ProcStep;
    Onward(a, s, Act(pid, c));
  }

  lemma AfterAfter(s: State, pid: int, m: Move, m': Move)
    ensures After(After(s, pid, m), pid, m') == After(s, pid, m')
  {
  }

  /** A whole critical section of the belt mutex, run without interference. */
  lemma Section(a: State, s: State, pid: int, op: BeltOp, m: Move, next: Point)
    requires Path(a, s) && pid in s.procs && s.procs[pid].pc == At(WantBelt(op)) && s.sh.beltMutex == 1
    requires HoldStep(s.sh.(beltMutex := 0), pid, s.procs[pid].(pc := DoBelt(op, s.sh.belt)), Go) == Some(m)
    requires m.q.pc == UnlockBelt(next)
    ensures Path(a, After(s, pid, Move(m.sh.(beltMutex := m.sh.beltMutex + 1), m.q.(pc := At(next)))))
  {
    hide Path, SessionBody, FloorBody;
    var sh1, q := s.sh.(beltMutex := 0), s.procs[pid];
    var m1 := Move(sh1, q.(pc := InBelt(op)));
    var m2 := Move(sh1, q.(pc := DoBelt(op, s.sh.belt)));
    var m4 := Move(m.sh.(beltMutex := m.sh.beltMutex + 1), m.q.(pc := At(next)));
    Go1(a, s, pid, Go, m1);
    Go1(a, After(s, pid, m1), pid, Go, m2);
    AfterAfter(s, pid, m1, m2);
    Go1(a, After(s, pid, m2), pid, Go, m);
    AfterAfter(s, pid, m2, m);
    Go1(a, After(s, pid, m), pid, Go, m4);
    AfterAfter(s, pid, m, m4);
  }

  /** A whole critical section of the dock mutex that sends no message. */
  lemma DockSection(a: State, s: State, pid: int, op: DockOp, c: Choice, m: Move, next: Point)
    requires Path(a, s) && pid in s.procs && s.procs[pid].pc == At(WantDock(op)) && s.sh.dockMutex == 1 && !c.Interrupt?
    requires HoldStep(s.sh.(dockMutex := 0), pid, s.procs[pid].(pc := DoDock(op, s.sh.dock)), c) == Some(m)
    requires m.q.pc == UnlockDock(next)
    ensures Path(a, After(s, pid, Move(m.sh.(dockMutex := m.sh.dockMutex + 1), m.q.(pc := At(next)))))
  {
    hide Path, LoaderBody, TruckBody;
    ToDockWrite(a, s, pid, op, c, m);
    var m4 := Move(m.sh.(dockMutex := m.sh.dockMutex + 1), m.q.(pc := At(next)));
    Go1(a, After(s, pid, m), pid, Go, m4);
    AfterAfter(s, pid, m, m4);
  }

  lemma ToDockWrite(a: State, s: State, pid: int, op: DockOp, c: Choice, m: Move)
    requires Path(a, s) && pid in s.procs && s.procs[pid].pc == At(WantDock(op)) && s.sh.dockMutex == 1 && !c.Interrupt?
    requires HoldStep(s.sh.(dockMutex := 0), pid, s.procs[pid].(pc := DoDock(op, s.sh.dock)), c) == Some(m)
    ensures Path(a, After(s, pid, m))
  {
    hide Path, LoaderBody, TruckBody;
    var sh1, q := s.sh.(dockMutex := 0), s.procs[pid];
    var m1 := Move(sh1, q.(pc := InDock(op)));
    var m2 := Move(sh1, q.(pc := DoDock(op, s.sh.dock)));
    Go1(a, s, pid, Go, m1);
    Go1(a, After(s, pid, m1), pid, Go, m2);
    AfterAfter(s, pid, m1, m2);
    Go1(a, After(s, pid, m2), pid, c, m);
    AfterAfter(s, pid, m2, m);
  }

  /** The same for a section that sends a departure before it unlocks. */
  lemma SendingSection(a: State, s: State, pid: int, op: DockOp, c: Choice, m: Move, to: int, next: Point)
    requires Path(a, s) && pid in s.procs && s.procs[pid].pc == At(WantDock(op)) && s.sh.dockMutex == 1 && !c.Interrupt?
    requires HoldStep(s.sh.(dockMutex := 0), pid, s.procs[pid].(pc := DoDock(op, s.sh.dock)), c) == Some(m)
    requires m.q.pc == SendDock(to, next)
    ensures Path(a, After(s, pid, Move(m.sh.(dockMutex := m.sh.dockMutex + 1, queue := Send(m.sh.queue, to, Departure)),
                                       m.q.(pc := At(next)))))
  {
    hide Path, LoaderBody, TruckBody, Send;
    ToDockWrite(a, s, pid, op, c, m);
    var m3 := Move(m.sh.(queue := Send(m.sh.queue, to, Departure)), m.q.(pc := UnlockDock(next)));
    var m4 := Move(m3.sh.(dockMutex := m3.sh.dockMutex + 1), m3.q.(pc := At(next)));
    Go1(a, After(s, pid, m), pid, Go, m3);
    AfterAfter(s, pid, m, m3);
    Go1(a, After(s, pid, m3), pid, Go, m4);
    AfterAfter(s, pid, m3, m4);
  }
}
