/** What the two loaders do at the dock in every reachable state, read off the cargo on board, and
    which random draws the steps admit. */
module LoadingTheorems {
  import opened Shared
  import opened Docking
  import Ledger
  import opened Protocol
  import opened Structure
  import opened Exclusion
  import opened Floor
  import opened Registry
  import opened Yard
  import opened Accounts
  import opened Rejection
  import opened Shutdown
  import opened Programs
  import opened Safety

  /** The truck has room for this much more beside its cargo. */
  predicate HasRoom(d: Ledger.Dock, weight: real, volume: real) {
    && Ledger.ItemWeight(d.cargo) + weight <= d.truck.maxWeight
    && Ledger.ItemVolume(d.cargo) + volume <= d.truck.maxVolume
  }

  /** The truck, with one package more, has its 100 packages or at least 99% of a limit. */
  predicate IsFull(d: Ledger.Dock) {
    || d.truck.currentLoad >= 100
    || 100.0 * Ledger.ItemWeight(d.cargo) >= 99.0 * d.truck.maxWeight
    || 100.0 * Ledger.ItemVolume(d.cargo) >= 99.0 * d.truck.maxVolume
  }

  /** The outcome of a load attempt by the cargo on board: without a truck nothing happens; a package
      for which there is no room is kept and the truck told to leave; any other package is put on
      board, counted, and the truck told to leave exactly if that has made it full. */
  predicate LoadOutcome(d: Ledger.Dock, q: Proc, m: Move) {
    |q.pkg| == 1 &&
    var p := q.pkg[0];
    if !d.truck.isPresent then
      m.q == q.(pc := UnlockDock(DispRetry)) && m.sh.dock == d
    else if !HasRoom(d, p.weight, p.volume) then
      && m.q.pc == SendDock(d.truck.id, DispRetry) && m.q.pkg == q.pkg && d.dockings in m.q.rejects
      && m.sh.dock == d.(called := true)
    else
      && m.q.pkg == [] && m.sh.dock.cargo == d.cargo + [Item(p.id, p.weight, p.volume)]
      && m.sh.dock.truck == d.truck.(currentLoad := d.truck.currentLoad + 1, currentWeight := Ledger.ItemWeight(d.cargo) + p.weight,
                                     currentVolume := Ledger.ItemVolume(d.cargo) + p.volume)
      && m.q.pc == if IsFull(m.sh.dock) then SendDock(d.truck.id, DispHead) else UnlockDock(DispHead)
  }

  lemma LoadDecides(d: Ledger.Dock, s: Memory, q: Proc, c: Choice)
    requires Ledger.DockOk(d) && |q.pkg| == 1 && q.pkg[0].id > 0
    ensures LoaderBody(s.(dock := d), q, Load, d, c).Some? && LoadOutcome(d, q, LoaderBody(s.(dock := d), q, Load, d, c).value)
  {
    if d.truck.isPresent {
      Ledger.PackageSums(d.cargo, ItemOf(q.pkg[0]));
      hide Ledger.ItemWeight, Ledger.ItemVolume, Ledger.BeltIds, Ledger.BooksOk;
    }
  }

  /** Refused if and only if the cargo leaves no room, loaded otherwise. */
  lemma LoadExactlyWhen(s: State, capacity: nat, pid: int, c: Choice)
    requires Reachable(s, capacity) && pid in s.procs && s.procs[pid].pc.DoDock? && s.procs[pid].pc.dop.Load?
    ensures var m := ProcStep(s.sh, pid, s.procs[pid], c); m.Some? && LoadOutcome(s.sh.dock, s.procs[pid], m.value)
  {
    hide Reachable, RegistryOk, RejectOk, StopOk, ProgramsOk, OwnerOk, PendingOk, Ledger.DockOk, LoadOutcome, LoaderBody;
    ReachableInv(s, capacity);
    var q := s.procs[pid];
    assert ProcOk(q) && Fresh(s.sh, q);
    hide BaseOk;
    HeldIsLoadable(s, pid);
    assert q.pkg[0] in q.pkg;
    LoadDecides(s.sh.dock, s.sh, q, c);
    assert s.sh.(dock := s.sh.dock) == s.sh;
  }

  /** The outcome of an express batch: the longest prefix for which there is room goes on board, and
      the truck is told to leave exactly if that is not the whole batch. */
  ghost predicate BatchOutcome(d: Ledger.Dock, items: seq<Item>, q: Proc, m: Move) {
    exists n: nat :: TakesPrefix(d, items, n, m.sh.dock) &&
      m.q == q.(pc := if n < |items| then SendDock(d.truck.id, ExprHead) else UnlockDock(ExprHead))
  }

  predicate TakesPrefix(d: Ledger.Dock, items: seq<Item>, n: nat, d': Ledger.Dock) {
    && n <= |items| && d'.cargo == d.cargo + items[..n]
    && d'.truck == d.truck.(currentWeight := Ledger.ItemWeight(d'.cargo), currentVolume := Ledger.ItemVolume(d'.cargo))
    && HasRoom(d', 0.0, 0.0)
    && (n < |items| ==> !HasRoom(d, Ledger.ItemWeight(items[..n + 1]), Ledger.ItemVolume(items[..n + 1])))
  }

  lemma BatchDecides(d: Ledger.Dock, items: seq<Item>)
    requires Ledger.DockOk(d) && d.truck.isPresent && 3 <= |items| <= 5
    requires forall i :: 0 <= i < |items| ==> ExpressItem(items[i])
    ensures TakesPrefix(d, items, BatchTaken(d.truck, items), Ledger.LoadBatch(d, items).0)
  {
    var n, d' := BatchTaken(d.truck, items), Ledger.LoadBatch(d, items).0;
    hide ExpressItem, Ledger.DockOk;
    Ledger.BatchIsLongest(d.truck, items);
    Ledger.BatchKeeps(d, items);
    hide BatchTaken, AddItems, Ledger.ItemWeight, Ledger.ItemVolume;
    RecordIsCargo(d);
    RecordIsCargo(d');
  }

  lemma RecordIsCargo(d: Ledger.Dock)
    requires Ledger.DockOk(d) && d.truck.isPresent
    ensures d.truck.currentWeight == Ledger.ItemWeight(d.cargo) <= d.truck.maxWeight
    ensures d.truck.currentVolume == Ledger.ItemVolume(d.cargo) <= d.truck.maxVolume
  {
  }

  /** A batch that Express can draw. */
  predicate Drawable(c: Choice) {
    c.Items? && 3 <= |c.items| <= 5 && forall i :: 0 <= i < |c.items| ==> ExpressItem(c.items[i])
  }

  lemma BatchExactlyWhen(s: State, capacity: nat, pid: int, c: Choice)
    requires Reachable(s, capacity) && pid in s.procs && s.procs[pid].pc.DoDock? && s.procs[pid].pc.dop.Batch?
    ensures var q := s.procs[pid];
      var m := ProcStep(s.sh, pid, q, c);
      && (!s.sh.dock.truck.isPresent ==> m == Some(Move(s.sh, q.(pc := UnlockDock(ExprHead)))))
      && (s.sh.dock.truck.isPresent ==> (m.Some? <==> Drawable(c)) && (m.Some? ==> BatchOutcome(s.sh.dock, c.items, q, m.value)))
  {
    hide Reachable, RegistryOk, RejectOk, StopOk, ProgramsOk, OwnerOk, PendingOk, Ledger.DockOk, FloorOk, AccountsOk, TakesPrefix;
    ReachableInv(s, capacity);
    var q := s.procs[pid];
    assert Fresh(s.sh, q);
    hide BaseOk;
    assert ProcStep(s.sh, pid, q, c) == LoaderBody(s.sh, q, Batch, s.sh.dock, c);
    if s.sh.dock.truck.isPresent && Drawable(c) {
      BatchDecides(s.sh.dock, c.items);
      assert TakesPrefix(s.sh.dock, c.items, BatchTaken(s.sh.dock.truck, c.items), Ledger.LoadBatch(s.sh.dock, c.items).0);
    }
  }

  /** A worker can make exactly the packages of its three classes, and a truck can dock at a free dock
      with exactly the limits in range, which its record then has. */
  lemma DrawsExactlyWhen(s: Memory, pid: int, q: Proc, c: Choice)
    ensures q.pc == At(Make) ==>
      ProcStep(s, pid, q, c) ==
      if c.Pack? && WorkerMade(c.p) then Some(Move(s, q.(pc := At(LoadTest), pkg := [c.p]))) else None
    ensures q.pc == DoDock(Claim, s.dock) && !s.dock.truck.isPresent ==>
      (ProcStep(s, pid, q, c).Some? <==> c.Specs? && 200.0 <= c.maxWeight < 600.0 && 1.0 <= c.maxVolume < 3.0)
    ensures q.pc == DoDock(Claim, s.dock) && !s.dock.truck.isPresent && ProcStep(s, pid, q, c).Some? ==>
      && ProcStep(s, pid, q, c).value.q == q.(pc := UnlockDock(TruckWait))
      && ProcStep(s, pid, q, c).value.sh.dock.truck == TruckState(true, pid, 0, 100, 0.0, 0.0, c.maxWeight, c.maxVolume)
  {
    if q.pc == At(Make) {
    } else if q.pc == DoDock(Claim, s.dock) {
      assert ProcStep(s, pid, q, c) == TruckBody(s, pid, q, Claim, s.dock, c);
    }
  }
}
